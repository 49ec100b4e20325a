/**
 * The bot's state as the source keeps it: one mutable registry of queue
 * entries, changed in place by the message handler, by `playSong` and by
 * the listeners it registers.  The effects the handlers cause are appended
 * to `log`.  Every method is proved to do what the matching function of
 * module Queue says.
 */
module Bot {
  import opened Options
  import opened Text
  import opened Queue
  import opened Properties

  class MusicBot {
    /** The `queue` Map: guild id to queue entry. */
    var queue: Registry
    /** Every effect caused so far, oldest first. */
    var log: seq<Effect>

    ghost predicate Valid()
      reads this
    {
      Inv(queue)
    }

    constructor ()
      ensures Valid() && queue == map[] && log == []
    {
      queue := map[];
      log := [];
    }

    /**
     * `playSong(guild, song)`.  It needs no `Valid()`: the `!play` branch
     * calls it on the entry it is still building, whose listener count is
     * still zero, and the Valid-preserving handlers restore the invariant.
     */
    method PlaySong(g: GuildId, song: Option<Song>)
      modifies this
      ensures queue == Queue.PlaySong(old(queue), g, song).registry
      ensures log == old(log) + Queue.PlaySong(old(queue), g, song).effects
    {
      if g !in queue {
        return;
      }
      var serverQueue := queue[g];
      if song.None? {
        if serverQueue.hasConnection {
          log := log + [DestroyConnection];
        }
        queue := queue - {g};
        return;
      }
      log := log + [Play(song.value.url)];
      queue := queue[g := serverQueue.(listeners := serverQueue.listeners + 1)];
      if serverQueue.hasTextChannel {
        log := log + [Send(NowPlaying(song.value.title))];
      }
    }

    /** The body of one Idle or error listener: shift, then play the new head. */
    method RunListener(g: GuildId)
      requires Valid()
      modifies this
      ensures Valid()
      ensures queue == Advance(old(queue), g).registry
      ensures log == old(log) + Advance(old(queue), g).effects
    {
      AdvanceKeepsInv(queue, g);
      if g in queue {
        var serverQueue := queue[g];
        queue := queue[g := serverQueue.(songs := Shift(serverQueue.songs))];
        PlaySong(g, Head(queue[g].songs));
      }
    }

    /** A terminal event of the guild's player, handled by one advance. */
    method OnPlayerEvent(g: GuildId, ev: PlayerEvent)
      requires Valid()
      modifies this
      ensures Valid()
      ensures queue == Queue.OnPlayerEvent(old(queue), g, ev).registry
      ensures log == old(log) + Queue.OnPlayerEvent(old(queue), g, ev).effects
    {
      PlayerEventKeepsInv(queue, g, ev);
      RunListener(g);
    }

    /**
     * A terminal event as the source delivers it: every listener pair
     * registered on the player so far runs, one after the other.
     */
    method OnPlayerEventAsWritten(g: GuildId, ev: PlayerEvent)
      requires Valid()
      modifies this
      ensures Valid()
      ensures queue == Queue.OnPlayerEventAsWritten(old(queue), g, ev).registry
      ensures log == old(log) + Queue.OnPlayerEventAsWritten(old(queue), g, ev).effects
    {
      if g in queue {
        RunAllListeners(g, queue[g].listeners);
      }
    }

    /** Runs the first `n` listeners of one emit in registration order. */
    method RunAllListeners(g: GuildId, n: nat)
      requires Valid()
      modifies this
      ensures Valid()
      ensures queue == RunListeners(old(queue), g, n).registry
      ensures log == old(log) + RunListeners(old(queue), g, n).effects
    {
      ghost var q0, l0 := queue, log;
      for i := 0 to n
        invariant queue == RunListeners(q0, g, i).registry
        invariant log == l0 + RunListeners(q0, g, i).effects
        invariant Valid()
      {
        ghost var before := RunListeners(q0, g, i);
        ghost var step := Advance(before.registry, g);
        assert RunListeners(q0, g, i + 1) == Outcome(step.registry, before.effects + step.effects);
        RunListener(g);
        assert log == l0 + (before.effects + step.effects);
      }
    }

    /** The Disconnected listener of the guild's voice connection. */
    method OnDisconnect(g: GuildId)
      requires Valid()
      modifies this
      ensures Valid()
      ensures queue == Queue.OnDisconnect(old(queue), g).registry
      ensures log == old(log) + Queue.OnDisconnect(old(queue), g).effects
    {
      DisconnectRemovesEntry(queue, g);
      queue := queue - {g};
    }

    /** The `messageCreate` handler. */
    method OnMessage(msg: Message, svc: Services)
      requires Valid()
      modifies this
      ensures Valid()
      ensures queue == HandleMessage(old(queue), msg, svc).registry
      ensures log == old(log) + HandleMessage(old(queue), msg, svc).effects
    {
      HandleMessageKeepsInv(queue, msg, svc);
      if msg.authorIsBot {
        return;
      }
      var args := Split(msg.content, ' ');
      var command := args[0];
      var g := msg.guild;
      if command == "!play" {
        OnPlay(msg, svc);
      } else if command == "!skip" {
        if g !in queue {
          log := log + [Reply(NothingToSkip)];
          return;
        }
        log := log + [PlayerStop];
      } else if command == "!stop" {
        if g !in queue {
          log := log + [Reply(NothingToStop)];
          return;
        }
        queue := queue[g := queue[g].(songs := [])];
        log := log + [PlayerStop, Reply(Stopped)];
      } else if command == "!pause" {
        if g !in queue || !queue[g].playing {
          log := log + [Reply(NothingPlaying)];
          return;
        }
        queue := queue[g := queue[g].(playing := false)];
        log := log + [Pause, Reply(Paused)];
      } else if command == "!resume" {
        if g !in queue || queue[g].playing {
          log := log + [Reply(NothingPaused)];
          return;
        }
        queue := queue[g := queue[g].(playing := true)];
        log := log + [Unpause, Reply(Resumed)];
      } else if command == "!queue" {
        if g !in queue || |queue[g].songs| == 0 {
          log := log + [Reply(QueueEmpty)];
          return;
        }
        var songList := Listing(Titles(queue[g].songs));
        log := log + [Reply(QueueHeader + songList)];
      }
    }

    /**
     * The `!play` branch of the handler.  An internal step of `OnMessage`,
     * which states `Valid()` for it (`PlayCommandKeepsInv`).
     */
    method OnPlay(msg: Message, svc: Services)
      modifies this
      ensures queue == PlayCommand(old(queue), msg, svc).registry
      ensures log == old(log) + PlayCommand(old(queue), msg, svc).effects
    {
      var g := msg.guild;
      var url := Argument(msg.content);
      if BadArgument(url, svc.validUrl) {
        log := log + [Reply(InvalidLink)];
        return;
      }
      if svc.info.None? {
        return;
      }
      var song := svc.info.value;
      if g !in queue {
        queue := queue[g := Entry([], true, false, msg.hasChannel, 0)];
        queue := queue[g := queue[g].(songs := queue[g].songs + [song])];
        assert [] + [song] == [song];
        assert queue == old(queue)[g := NewEntry(song, msg.hasChannel)];
        if !svc.joinOk {
          queue := queue - {g};
          assert queue == old(queue);
          log := log + [Reply(JoinFailed)];
          return;
        }
        queue := queue[g := queue[g].(hasConnection := true)];
        log := log + [Connect];
        PlaySong(g, Head(queue[g].songs));
      } else {
        queue := queue[g := queue[g].(songs := queue[g].songs + [song])];
        log := log + [Reply(Added(song.title))];
      }
    }
  }
}
