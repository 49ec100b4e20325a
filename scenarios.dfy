/**
 * Whole sessions of one guild, from an empty registry: the ordinary
 * play / play / skip / stop session, and the session in which the Idle and
 * error listeners that `playSong` registers again for every song make one
 * terminal event advance the queue more than once.
 */
module Scenarios {
  import opened Options
  import opened Text
  import opened Queue
  import opened Properties

  /** A message that is a valid `!play` for guild `g`, with its metadata found. */
  predicate ValidPlay(msg: Message, svc: Services, g: GuildId)
  {
    && !msg.authorIsBot && msg.guild == g
    && KeywordOf(msg.content) == PlayKw
    && !BadArgument(Argument(msg.content), svc.validUrl)
    && svc.info.Some?
  }

  /** A message, not from a bot, for guild `g` whose command is `k`. */
  predicate Issues(msg: Message, g: GuildId, k: Keyword)
  {
    !msg.authorIsBot && msg.guild == g && KeywordOf(msg.content) == k
  }

  /** The registry after three valid `!play`s of A, B and C on an idle guild. */
  lemma ThreePlays(g: GuildId, mA: Message, sA: Services, mB: Message, sB: Services, mC: Message, sC: Services)
    requires ValidPlay(mA, sA, g) && sA.joinOk && ValidPlay(mB, sB, g) && ValidPlay(mC, sC, g)
    ensures var r1 := HandleMessage(map[], mA, sA).registry;
      var r2 := HandleMessage(r1, mB, sB).registry;
      HandleMessage(r2, mC, sC).registry ==
        map[g := Entry([sA.info.value, sB.info.value, sC.info.value], true, true, mA.hasChannel, 1)]
  {
    var a, b, c := sA.info.value, sB.info.value, sC.info.value;
    var r0: Registry := map[];
    PlayCreatesEntry(r0, mA, sA);
    var r1 := map[g := Entry([a], true, true, mA.hasChannel, 1)];
    assert r0[g := Entry([a], true, true, mA.hasChannel, 1)] == r1;
    PlayAppends(r1, mB, sB);
    var r2 := map[g := Entry([a, b], true, true, mA.hasChannel, 1)];
    assert [a] + [b] == [a, b];
    PlayAppends(r2, mC, sC);
    assert [a, b] + [c] == [a, b, c];
  }

  /** As written: with B playing and two listener pairs registered, the end of B starts C and then tears down. */
  lemma PileUpTail(g: GuildId, a: Song, b: Song, c: Song, hasChannel: bool, endA: PlayerEvent, endB: PlayerEvent)
    ensures var r3 := map[g := Entry([a, b, c], true, true, hasChannel, 1)];
      var r4 := OnPlayerEventAsWritten(r3, g, endA).registry;
      OnPlayerEventAsWritten(r4, g, endB) ==
        Outcome(map[], [Play(c.url)] + (if hasChannel then [Send(NowPlaying(c.title))] else []) + [DestroyConnection])
  {
    var r3 := map[g := Entry([a, b, c], true, true, hasChannel, 1)];
    AdvancePlaysNext(r3, g);
    assert [a, b, c][1..] == [b, c];
    var r4 := map[g := Entry([b, c], true, true, hasChannel, 2)];
    assert Advance(r3, g).registry == r4;
    assert RunListeners(r3, g, 1).registry == Advance(r3, g).registry;
    AdvancePlaysNext(r4, g);
    assert [b, c][1..] == [c];
    var r5 := map[g := Entry([c], true, true, hasChannel, 3)];
    assert Advance(r4, g).registry == r5;
    AdvanceTearsDown(r5, g);
    assert r5 - {g} == map[];
    assert RunListeners(r4, g, 1) == Advance(r4, g);
  }

  /** Once per event: with B playing, the end of B starts C and keeps it queued; the end of C tears down. */
  lemma OneAdvanceTail(g: GuildId, a: Song, b: Song, c: Song, hasChannel: bool,
                       endA: PlayerEvent, endB: PlayerEvent, endC: PlayerEvent)
    ensures var r3 := map[g := Entry([a, b, c], true, true, hasChannel, 1)];
      var r4 := OnPlayerEvent(r3, g, endA).registry;
      var out := OnPlayerEvent(r4, g, endB);
      && out == Outcome(map[g := Entry([c], true, true, hasChannel, 3)],
                        [Play(c.url)] + (if hasChannel then [Send(NowPlaying(c.title))] else []))
      && OnPlayerEvent(out.registry, g, endC) == Outcome(map[], [DestroyConnection])
  {
    var r3 := map[g := Entry([a, b, c], true, true, hasChannel, 1)];
    AdvancePlaysNext(r3, g);
    assert [a, b, c][1..] == [b, c];
    var r4 := map[g := Entry([b, c], true, true, hasChannel, 2)];
    assert Advance(r3, g).registry == r4;
    AdvancePlaysNext(r4, g);
    assert [b, c][1..] == [c];
    var r5 := map[g := Entry([c], true, true, hasChannel, 3)];
    assert Advance(r4, g).registry == r5;
    AdvanceTearsDown(r5, g);
    assert r5 - {g} == map[];
  }

  /**
   * As written, the listeners pile up: after A ends, B is playing and two
   * listener pairs are registered, so the end of B runs two advances.  The
   * first starts C, the second finds the queue empty and tears the session
   * down: C is dropped before it is heard.
   */
  lemma PileUpDropsQueuedSong(
    g: GuildId, mA: Message, sA: Services, mB: Message, sB: Services, mC: Message, sC: Services,
    endA: PlayerEvent, endB: PlayerEvent)
    requires ValidPlay(mA, sA, g) && sA.joinOk && ValidPlay(mB, sB, g) && ValidPlay(mC, sC, g)
    ensures var r1 := HandleMessage(map[], mA, sA).registry;
      var r2 := HandleMessage(r1, mB, sB).registry;
      var r3 := HandleMessage(r2, mC, sC).registry;
      var r4 := OnPlayerEventAsWritten(r3, g, endA).registry;
      var out := OnPlayerEventAsWritten(r4, g, endB);
      var c := sC.info.value;
      && out.registry == map[]
      && out.effects == [Play(c.url)] +
           (if mA.hasChannel then [Send(NowPlaying(c.title))] else []) + [DestroyConnection]
  {
    ThreePlays(g, mA, sA, mB, sB, mC, sC);
    PileUpTail(g, sA.info.value, sB.info.value, sC.info.value, mA.hasChannel, endA, endB);
  }

  /**
   * Handled once per terminal event, the same session keeps C: after B
   * ends, C is playing and still queued, and only the end of C tears the
   * session down.
   */
  lemma OneAdvancePerEventKeepsQueuedSong(
    g: GuildId, mA: Message, sA: Services, mB: Message, sB: Services, mC: Message, sC: Services,
    endA: PlayerEvent, endB: PlayerEvent, endC: PlayerEvent)
    requires ValidPlay(mA, sA, g) && sA.joinOk && ValidPlay(mB, sB, g) && ValidPlay(mC, sC, g)
    ensures var r1 := HandleMessage(map[], mA, sA).registry;
      var r2 := HandleMessage(r1, mB, sB).registry;
      var r3 := HandleMessage(r2, mC, sC).registry;
      var r4 := OnPlayerEvent(r3, g, endA).registry;
      var out := OnPlayerEvent(r4, g, endB);
      var c := sC.info.value;
      && g in out.registry && out.registry[g].songs == [c]
      && out.effects == [Play(c.url)] + (if mA.hasChannel then [Send(NowPlaying(c.title))] else [])
      && OnPlayerEvent(out.registry, g, endC) == Outcome(map[], [DestroyConnection])
  {
    ThreePlays(g, mA, sA, mB, sB, mC, sC);
    OneAdvanceTail(g, sA.info.value, sB.info.value, sC.info.value, mA.hasChannel, endA, endB, endC);
  }

  /**
   * `!play v1`, `!play v2`, `!skip`, end of track, `!stop`, end of track:
   * one entry and one connection are created, v2 is appended without a
   * second connection, the skip only stops the player and the end of the
   * track makes v2 the head and plays it, and the stop leads to the
   * teardown that destroys the connection and empties the registry.
   */
  lemma PlaySkipStopSession(
    g: GuildId, m1: Message, s1: Services, m2: Message, s2: Services,
    skip: Message, stop: Message, svc: Services, end1: PlayerEvent, end2: PlayerEvent)
    requires ValidPlay(m1, s1, g) && s1.joinOk && ValidPlay(m2, s2, g)
    requires Issues(skip, g, SkipKw) && Issues(stop, g, StopKw)
    ensures var v1, v2 := s1.info.value, s2.info.value;
      var o1 := HandleMessage(map[], m1, s1);
      var o2 := HandleMessage(o1.registry, m2, s2);
      var o3 := HandleMessage(o2.registry, skip, svc);
      var o4 := OnPlayerEvent(o3.registry, g, end1);
      var o5 := HandleMessage(o4.registry, stop, svc);
      var o6 := OnPlayerEvent(o5.registry, g, end2);
      && o1.registry.Keys == {g} && o1.registry[g].songs == [v1]
      && o1.effects[..2] == [Connect, Play(v1.url)]
      && o2.registry.Keys == {g} && o2.registry[g].songs == [v1, v2]
      && o2.effects == [Reply(Added(v2.title))]
      && o3 == Outcome(o2.registry, [PlayerStop])
      && g in o4.registry && o4.registry[g].songs == [v2]
      && o4.effects[0] == Play(v2.url)
      && g in o5.registry && o5.registry[g].songs == []
      && o5.effects == [PlayerStop, Reply(Stopped)]
      && o6 == Outcome(map[], [DestroyConnection])
  {
    var v1, v2 := s1.info.value, s2.info.value;
    var r0: Registry := map[];
    PlayCreatesEntry(r0, m1, s1);
    var r1 := map[g := Entry([v1], true, true, m1.hasChannel, 1)];
    assert r0[g := Entry([v1], true, true, m1.hasChannel, 1)] == r1;
    PlayAppends(r1, m2, s2);
    assert [v1] + [v2] == [v1, v2];
    SessionEnd(g, v1, v2, m1.hasChannel, skip, stop, svc, end1, end2);
  }

  /** The second half of PlaySkipStopSession, from two queued songs on. */
  lemma SessionEnd(g: GuildId, v1: Song, v2: Song, hasChannel: bool,
                   skip: Message, stop: Message, svc: Services, end1: PlayerEvent, end2: PlayerEvent)
    requires Issues(skip, g, SkipKw) && Issues(stop, g, StopKw)
    ensures var r2 := map[g := Entry([v1, v2], true, true, hasChannel, 1)];
      var o3 := HandleMessage(r2, skip, svc);
      var o4 := OnPlayerEvent(o3.registry, g, end1);
      var o5 := HandleMessage(o4.registry, stop, svc);
      var o6 := OnPlayerEvent(o5.registry, g, end2);
      && o3 == Outcome(r2, [PlayerStop])
      && o4.registry == map[g := Entry([v2], true, true, hasChannel, 2)]
      && o4.effects[0] == Play(v2.url)
      && o5 == Outcome(map[g := Entry([], true, true, hasChannel, 2)], [PlayerStop, Reply(Stopped)])
      && o6 == Outcome(map[], [DestroyConnection])
  {
    SkipThenEvent(g, v1, v2, hasChannel, skip, svc, end1);
    StopThenEvent(g, v2, hasChannel, stop, svc, end2);
  }

  lemma SkipThenEvent(g: GuildId, v1: Song, v2: Song, hasChannel: bool, skip: Message, svc: Services, end1: PlayerEvent)
    requires Issues(skip, g, SkipKw)
    ensures var r2 := map[g := Entry([v1, v2], true, true, hasChannel, 1)];
      var o3 := HandleMessage(r2, skip, svc);
      var o4 := OnPlayerEvent(o3.registry, g, end1);
      && o3 == Outcome(r2, [PlayerStop])
      && o4.registry == map[g := Entry([v2], true, true, hasChannel, 2)]
      && o4.effects[0] == Play(v2.url)
  {
    var r2 := map[g := Entry([v1, v2], true, true, hasChannel, 1)];
    SkipOnlyStopsPlayer(r2, skip, svc);
    AdvancePlaysNext(r2, g);
    assert [v1, v2][1..] == [v2];
  }

  lemma StopThenEvent(g: GuildId, v2: Song, hasChannel: bool, stop: Message, svc: Services, end2: PlayerEvent)
    requires Issues(stop, g, StopKw)
    ensures var r4 := map[g := Entry([v2], true, true, hasChannel, 2)];
      var o5 := HandleMessage(r4, stop, svc);
      && o5 == Outcome(map[g := Entry([], true, true, hasChannel, 2)], [PlayerStop, Reply(Stopped)])
      && OnPlayerEvent(o5.registry, g, end2) == Outcome(map[], [DestroyConnection])
  {
    var r4 := map[g := Entry([v2], true, true, hasChannel, 2)];
    StopClearsQueue(r4, stop, svc);
    assert r4[g := r4[g].(songs := [])] == map[g := Entry([], true, true, hasChannel, 2)];
    StopThenEventTearsDown(r4, stop, svc, end2);
    assert r4 - {g} == map[];
  }
}
