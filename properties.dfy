/**
 * What the command handler and the advance step promise, stated over the
 * transition functions of module Queue: who may change what, the frame of
 * every command, the teardown at the end of the queue, and the invariant
 * that every registered guild holds a voice connection and a listener.
 */
module Properties {
  import opened Options
  import opened Text
  import opened Queue

  /** Every entry in the registry has its voice connection and at least one listener pair. */
  predicate Inv(r: Registry)
  {
    forall g :: g in r ==> r[g].hasConnection && r[g].listeners >= 1
  }

  // ---------------------------------------------------------------------
  // Messages in general

  /** A message written by a bot changes nothing and causes nothing. */
  lemma BotMessageIgnored(r: Registry, msg: Message, svc: Services)
    requires msg.authorIsBot
    ensures HandleMessage(r, msg, svc) == Outcome(r, [])
  {
  }

  /** Text whose first token is none of the six commands changes nothing and causes nothing. */
  lemma UnknownCommandIgnored(r: Registry, msg: Message, svc: Services)
    requires !msg.authorIsBot && KeywordOf(msg.content) == Unrecognised
    ensures HandleMessage(r, msg, svc) == Outcome(r, [])
  {
  }

  /** A voice connection is opened by a message exactly when that message created the guild's entry. */
  lemma ConnectOnlyWhenCreated(r: Registry, msg: Message, svc: Services)
    ensures var res := HandleMessage(r, msg, svc);
      Connect in res.effects <==> msg.guild !in r && msg.guild in res.registry
  {
    if !msg.authorIsBot {
      match KeywordOf(msg.content)
      case PlayKw => PlayConnectsOnlyWhenCreating(r, msg, svc);
      case SkipKw =>
      case StopKw =>
      case PauseKw =>
      case ResumeKw =>
      case QueueKw =>
      case Unrecognised =>
    }
  }

  lemma PlayConnectsOnlyWhenCreating(r: Registry, msg: Message, svc: Services)
    ensures var res := PlayCommand(r, msg, svc);
      Connect in res.effects <==> msg.guild !in r && msg.guild in res.registry
  {
    var g := msg.guild;
    if !BadArgument(Argument(msg.content), svc.validUrl) && svc.info.Some? && g !in r {
      var r1 := r[g := NewEntry(svc.info.value, msg.hasChannel)];
      if svc.joinOk {
        var r2 := r1[g := r1[g].(hasConnection := true)];
        assert g in PlaySong(r2, g, Head(r2[g].songs)).registry;
      } else {
        assert r1 - {g} == r;
      }
    }
  }

  /** Handling a message keeps every entry connected and listened to. */
  lemma HandleMessageKeepsInv(r: Registry, msg: Message, svc: Services)
    requires Inv(r)
    ensures Inv(HandleMessage(r, msg, svc).registry)
  {
    if !msg.authorIsBot {
      var g := msg.guild;
      match KeywordOf(msg.content)
      case PlayKw => PlayCommandKeepsInv(r, msg, svc);
      case SkipKw =>
      case StopKw => assert HandleMessage(r, msg, svc) == StopCommand(r, g);
      case PauseKw => assert HandleMessage(r, msg, svc) == PauseCommand(r, g);
      case ResumeKw => assert HandleMessage(r, msg, svc) == ResumeCommand(r, g);
      case QueueKw =>
      case Unrecognised =>
    }
  }

  /** `!play` keeps every entry connected and listened to. */
  lemma PlayCommandKeepsInv(r: Registry, msg: Message, svc: Services)
    requires Inv(r)
    ensures Inv(PlayCommand(r, msg, svc).registry)
  {
    var res := PlayCommand(r, msg, svc);
    forall h | h in res.registry ensures res.registry[h].hasConnection && res.registry[h].listeners >= 1 {
      if h != msg.guild {
        assert h in res.registry - {msg.guild};
      }
    }
  }

  // ---------------------------------------------------------------------
  // !play

  /** A missing, empty or invalid url gets the invalid-link reply and changes nothing. */
  lemma PlayRejectsBadArgument(r: Registry, msg: Message, svc: Services)
    requires !msg.authorIsBot && KeywordOf(msg.content) == PlayKw
    requires BadArgument(Argument(msg.content), svc.validUrl)
    ensures HandleMessage(r, msg, svc) == Outcome(r, [Reply(InvalidLink)])
  {
  }

  /** A rejected metadata lookup stops the handler with no state change and no reply; the rejection itself escapes it uncaught. */
  lemma PlayLookupFailureIgnored(r: Registry, msg: Message, svc: Services)
    requires !msg.authorIsBot && KeywordOf(msg.content) == PlayKw
    requires !BadArgument(Argument(msg.content), svc.validUrl) && svc.info.None?
    ensures HandleMessage(r, msg, svc) == Outcome(r, [])
  {
  }

  /**
   * A valid `!play` on a guild without an entry creates exactly that one
   * entry, holding only the song, playing, connected, with one listener
   * pair; it connects, plays the song and announces it.
   */
  lemma PlayCreatesEntry(r: Registry, msg: Message, svc: Services)
    requires !msg.authorIsBot && KeywordOf(msg.content) == PlayKw
    requires !BadArgument(Argument(msg.content), svc.validUrl) && svc.info.Some?
    requires msg.guild !in r && svc.joinOk
    ensures var song := svc.info.value;
      HandleMessage(r, msg, svc) ==
        Outcome(r[msg.guild := Entry([song], true, true, msg.hasChannel, 1)],
                [Connect, Play(song.url)] + (if msg.hasChannel then [Send(NowPlaying(song.title))] else []))
  {
  }

  /** When joining the voice channel fails, the entry just created is removed again. */
  lemma PlayJoinFailureRollsBack(r: Registry, msg: Message, svc: Services)
    requires !msg.authorIsBot && KeywordOf(msg.content) == PlayKw
    requires !BadArgument(Argument(msg.content), svc.validUrl) && svc.info.Some?
    requires msg.guild !in r && !svc.joinOk
    ensures HandleMessage(r, msg, svc) == Outcome(r, [Reply(JoinFailed)])
  {
    var song := svc.info.value;
    assert r[msg.guild := NewEntry(song, msg.hasChannel)] - {msg.guild} == r;
  }

  /**
   * A valid `!play` on a guild with an entry appends the song at the end of
   * its queue and only replies: no connection, no playback, `playing` and
   * every other field and guild as they were.
   */
  lemma PlayAppends(r: Registry, msg: Message, svc: Services)
    requires !msg.authorIsBot && KeywordOf(msg.content) == PlayKw
    requires !BadArgument(Argument(msg.content), svc.validUrl) && svc.info.Some?
    requires msg.guild in r
    ensures var res := HandleMessage(r, msg, svc); var e := r[msg.guild];
      && res.registry == r[msg.guild := e.(songs := e.songs + [svc.info.value])]
      && res.effects == [Reply(Added(svc.info.value.title))]
  {
  }

  /** The Disconnected notification removes the guild's entry and keeps the invariant. */
  lemma DisconnectRemovesEntry(r: Registry, g: GuildId)
    requires Inv(r)
    ensures var res := OnDisconnect(r, g);
      res.registry.Keys == r.Keys - {g} && Inv(res.registry)
  {
    var res := OnDisconnect(r, g);
    forall h | h in res.registry ensures h in r && res.registry[h] == r[h] {
      assert h in res.registry - {g};
    }
  }

  // ---------------------------------------------------------------------
  // !pause and !resume

  /** `!pause` acts exactly when the guild has an entry that is playing, and then only clears `playing`. */
  lemma PauseOnlyWhenPlaying(r: Registry, msg: Message, svc: Services)
    requires !msg.authorIsBot && KeywordOf(msg.content) == PauseKw
    ensures var res := HandleMessage(r, msg, svc); var g := msg.guild;
      if g in r && r[g].playing then
        res.registry == r[g := r[g].(playing := false)] && res.effects == [Pause, Reply(Paused)]
      else
        res == Outcome(r, [Reply(NothingPlaying)])
  {
  }

  /** `!resume` acts exactly when the guild has an entry that is paused, and then only sets `playing`. */
  lemma ResumeOnlyWhenPaused(r: Registry, msg: Message, svc: Services)
    requires !msg.authorIsBot && KeywordOf(msg.content) == ResumeKw
    ensures var res := HandleMessage(r, msg, svc); var g := msg.guild;
      if g in r && !r[g].playing then
        res.registry == r[g := r[g].(playing := true)] && res.effects == [Unpause, Reply(Resumed)]
      else
        res == Outcome(r, [Reply(NothingPaused)])
  {
  }

  /** A second `!pause` in a row only replies. */
  lemma PauseTwiceIsNoOp(r: Registry, msg: Message, svc: Services)
    requires !msg.authorIsBot && KeywordOf(msg.content) == PauseKw
    ensures var once := HandleMessage(r, msg, svc).registry;
      HandleMessage(once, msg, svc) == Outcome(once, [Reply(NothingPlaying)])
  {
  }

  /** A second `!resume` in a row only replies. */
  lemma ResumeTwiceIsNoOp(r: Registry, msg: Message, svc: Services)
    requires !msg.authorIsBot && KeywordOf(msg.content) == ResumeKw
    ensures var once := HandleMessage(r, msg, svc).registry;
      HandleMessage(once, msg, svc) == Outcome(once, [Reply(NothingPaused)])
  {
  }

  /** `!resume` undoes an effective `!pause`, and `!pause` undoes an effective `!resume`. */
  lemma PauseResumeInverse(r: Registry, g: GuildId)
    requires g in r
    ensures r[g].playing ==> ResumeCommand(PauseCommand(r, g).registry, g).registry == r
    ensures !r[g].playing ==> PauseCommand(ResumeCommand(r, g).registry, g).registry == r
  {
  }

  // ---------------------------------------------------------------------
  // !skip, !stop, !queue

  /** `!skip` never changes the registry; with an entry it only stops the player. */
  lemma SkipOnlyStopsPlayer(r: Registry, msg: Message, svc: Services)
    requires !msg.authorIsBot && KeywordOf(msg.content) == SkipKw
    ensures var res := HandleMessage(r, msg, svc);
      res.registry == r &&
      res.effects == (if msg.guild in r then [PlayerStop] else [Reply(NothingToSkip)])
  {
  }

  /** `!stop` empties the guild's queue, leaving the rest of its entry alone, and stops the player. */
  lemma StopClearsQueue(r: Registry, msg: Message, svc: Services)
    requires !msg.authorIsBot && KeywordOf(msg.content) == StopKw
    ensures var res := HandleMessage(r, msg, svc); var g := msg.guild;
      if g in r then
        res.registry == r[g := r[g].(songs := [])] && res.effects == [PlayerStop, Reply(Stopped)]
      else
        res == Outcome(r, [Reply(NothingToStop)])
  {
  }

  /**
   * `!queue` never changes the registry.  Without an entry or songs it
   * says the queue is empty; otherwise it replies with the header and one
   * numbered line per song title, in queue order.
   */
  lemma QueueListsTitles(r: Registry, msg: Message, svc: Services)
    requires !msg.authorIsBot && KeywordOf(msg.content) == QueueKw
    ensures var res := HandleMessage(r, msg, svc); var g := msg.guild;
      && res.registry == r
      && (g !in r || r[g].songs == [] ==> res.effects == [Reply(QueueEmpty)])
      && (g in r && r[g].songs != [] ==>
            res.effects == [Reply(QueueHeader + Listing(Titles(r[g].songs)))])
  {
  }

  /** The lines of a `!queue` listing, read back, are the numbered titles. */
  lemma QueueListingLines(songs: seq<Song>)
    requires songs != []
    requires forall i :: 0 <= i < |songs| ==> '\n' !in songs[i].title
    ensures var lines := Split(Listing(Titles(songs)), '\n');
      |lines| == |songs| &&
      forall k :: 0 <= k < |songs| ==> lines[k] == DecimalString(k + 1) + ". " + songs[k].title
  {
    ListingLines(Titles(songs));
  }

  // ---------------------------------------------------------------------
  // The advance step and the terminal events

  /** The Idle and the error listener leave the same registry and effects behind. */
  lemma IdleAndErrorAgree(r: Registry, g: GuildId, reason: string)
    ensures OnPlayerEvent(r, g, Idle) == OnPlayerEvent(r, g, Error(reason))
    ensures OnPlayerEventAsWritten(r, g, Idle) == OnPlayerEventAsWritten(r, g, Error(reason))
  {
  }

  /**
   * With a next song, the advance removes exactly the head and plays and
   * announces the new head; `playing` and the connection are untouched.
   */
  lemma AdvancePlaysNext(r: Registry, g: GuildId)
    requires g in r && |r[g].songs| >= 2
    ensures var res := Advance(r, g); var e := r[g];
      && g in res.registry
      && res.registry[g] == e.(songs := e.songs[1..], listeners := e.listeners + 1)
      && res.effects == [Play(e.songs[1].url)] + Announce(e, e.songs[1])
  {
  }

  /**
   * Without a next song, the advance destroys the connection if there is
   * one and deletes the entry.
   */
  lemma AdvanceTearsDown(r: Registry, g: GuildId)
    requires g in r && |r[g].songs| <= 1
    ensures Advance(r, g) ==
      Outcome(r - {g}, if r[g].hasConnection then [DestroyConnection] else [])
  {
    var e := r[g].(songs := Shift(r[g].songs));
    assert r[g := e] - {g} == r - {g};
  }

  /** A terminal event keeps every entry connected and listened to. */
  lemma PlayerEventKeepsInv(r: Registry, g: GuildId, ev: PlayerEvent)
    requires Inv(r)
    ensures Inv(OnPlayerEvent(r, g, ev).registry)
  {
    AdvanceKeepsInv(r, g);
  }

  lemma AdvanceKeepsInv(r: Registry, g: GuildId)
    requires Inv(r)
    ensures Inv(Advance(r, g).registry)
  {
    var res := Advance(r, g);
    forall h | h in res.registry ensures res.registry[h].hasConnection && res.registry[h].listeners >= 1 {
      if h != g {
        assert h in res.registry - {g};
      }
    }
  }

  /** Any number of listeners run in a row keep the invariant. */
  lemma {:induction false} RunListenersKeepsInv(r: Registry, g: GuildId, n: nat)
    requires Inv(r)
    ensures Inv(RunListeners(r, g, n).registry)
    decreases n
  {
    if n > 0 {
      RunListenersKeepsInv(r, g, n - 1);
      AdvanceKeepsInv(RunListeners(r, g, n - 1).registry, g);
    }
  }

  /**
   * `!stop` followed by the terminal event of the stopped track always
   * reaches the teardown: the entry is deleted and its connection
   * destroyed.
   */
  lemma StopThenEventTearsDown(r: Registry, msg: Message, svc: Services, ev: PlayerEvent)
    requires Inv(r)
    requires !msg.authorIsBot && KeywordOf(msg.content) == StopKw && msg.guild in r
    ensures var stopped := HandleMessage(r, msg, svc).registry;
      OnPlayerEvent(stopped, msg.guild, ev) == Outcome(r - {msg.guild}, [DestroyConnection])
  {
    var g := msg.guild;
    var stopped := HandleMessage(r, msg, svc).registry;
    AdvanceTearsDown(stopped, g);
    assert stopped - {g} == r - {g};
  }

  /** `k` terminal events in a row, each handled once. */
  function Events(r: Registry, g: GuildId, k: nat): (res: Outcome)
    ensures SameElsewhere(r, res.registry, g)
    decreases k
  {
    if k == 0 then Outcome(r, [])
    else
      var before := Events(r, g, k - 1);
      var step := OnPlayerEvent(before.registry, g, Idle);
      Outcome(step.registry, before.effects + step.effects)
  }

  /**
   * After `k` terminal events on a queue longer than `k`, exactly the first
   * `k` songs are gone, each of the next `k` was played in turn, and
   * `playing` and the connection are as before.
   */
  lemma {:induction false} EventsAdvanceInOrder(r: Registry, g: GuildId, k: nat)
    requires g in r && k < |r[g].songs|
    ensures var res := Events(r, g, k);
      && g in res.registry
      && res.registry[g].songs == r[g].songs[k..]
      && res.registry[g].playing == r[g].playing
      && res.registry[g].hasConnection == r[g].hasConnection
      && res.registry[g].listeners == r[g].listeners + k
      && Plays(res.effects) == Urls(r[g].songs[1..k + 1])
    decreases k
  {
    if k > 0 {
      EventsAdvanceInOrder(r, g, k - 1);
      var before := Events(r, g, k - 1);
      var step := Advance(before.registry, g);
      assert Events(r, g, k) == Outcome(step.registry, before.effects + step.effects);
      AdvancePlaysNext(before.registry, g);
      AdvancePlaysOneUrl(before.registry, g);
      var s := r[g].songs;
      assert before.registry[g].songs[1] == s[k];
      PlaysAppend(before.effects, step.effects);
      assert s[1..k + 1] == s[1..k] + [s[k]];
      UrlsAppend(s[1..k], [s[k]]);
    }
  }

  /** An advance that has a next song plays exactly that song's url. */
  lemma AdvancePlaysOneUrl(r: Registry, g: GuildId)
    requires g in r && |r[g].songs| >= 2
    ensures Plays(Advance(r, g).effects) == [r[g].songs[1].url]
  {
    AdvancePlaysNext(r, g);
    var e := r[g];
    var send := Announce(e, e.songs[1]);
    PlaysAppend([Play(e.songs[1].url)], send);
    assert Plays(send) == [];
  }

  /**
   * A queue of `n >= 1` songs is gone after `n` terminal events: the entry
   * is deleted and, under the invariant, its connection destroyed as the
   * last effect.
   */
  lemma EventsExhaustQueue(r: Registry, g: GuildId)
    requires Inv(r) && g in r && |r[g].songs| >= 1
    ensures var res := Events(r, g, |r[g].songs|);
      g !in res.registry && res.registry == r - {g} &&
      |res.effects| >= 1 && res.effects[|res.effects| - 1] == DestroyConnection
  {
    var n := |r[g].songs|;
    EventsAdvanceInOrder(r, g, n - 1);
    var before := Events(r, g, n - 1);
    AdvanceTearsDown(before.registry, g);
    assert before.registry - {g} == r - {g};
  }

  /** The urls of the Play effects, in order. */
  function Plays(effects: seq<Effect>): (urls: seq<string>)
    ensures |urls| <= |effects|
  {
    if effects == [] then []
    else (if effects[0].Play? then [effects[0].url] else []) + Plays(effects[1..])
  }

  function Urls(songs: seq<Song>): (urls: seq<string>)
    ensures |urls| == |songs|
    ensures forall i :: 0 <= i < |songs| ==> urls[i] == songs[i].url
  {
    seq(|songs|, i requires 0 <= i < |songs| => songs[i].url)
  }

  lemma {:induction false} PlaysAppend(a: seq<Effect>, b: seq<Effect>)
    ensures Plays(a + b) == Plays(a) + Plays(b)
    decreases |a|
  {
    if a != [] {
      PlaysAppend(a[1..], b);
      var h := if a[0].Play? then [a[0].url] else [];
      calc {
        Plays(a + b);
        { assert (a + b)[0] == a[0]; assert (a + b)[1..] == a[1..] + b; }
        h + Plays(a[1..] + b);
        h + (Plays(a[1..]) + Plays(b));
        (h + Plays(a[1..])) + Plays(b);
        Plays(a) + Plays(b);
      }
    } else {
      assert a + b == b;
    }
  }

  lemma UrlsAppend(a: seq<Song>, b: seq<Song>)
    ensures Urls(a + b) == Urls(a) + Urls(b)
  {
  }
}
