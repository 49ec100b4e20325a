/**
 * The per-guild playback queue as a state machine over a registry that maps
 * a guild id to its queue entry.  Each transition takes the registry before
 * an event and yields the registry after it together with the external
 * effects the event caused, in order.  The class in module Bot updates its
 * state in place and is proved to follow these functions.
 */
module Queue {
  import opened Options
  import opened Text

  type GuildId = string

  /** The `{title, url}` record a `!play` builds from the video metadata. */
  datatype Song = Song(title: string, url: string)

  /**
   * One guild's queue entry.  `songs` is the queue, its head the song being
   * played; `playing` is false only after `!pause`; `hasConnection` and
   * `hasTextChannel` say whether the voice connection and the text channel
   * are set; `listeners` counts the Idle/error listener pairs registered on
   * the entry's audio player, one pair per song started.
   */
  datatype Entry = Entry(
    songs: seq<Song>,
    playing: bool,
    hasConnection: bool,
    hasTextChannel: bool,
    listeners: nat)

  type Registry = map<GuildId, Entry>

  /** What the handlers do to the outside world: voice, player and chat. */
  datatype Effect =
    | Connect                 // joinVoiceChannel and subscribe the player
    | Play(url: string)       // player.play of a stream of that url
    | PlayerStop
    | Pause
    | Unpause
    | DestroyConnection
    | Reply(text: string)     // message.reply
    | Send(text: string)      // textChannel.send

  /** An incoming chat message, reduced to what the handler reads. */
  datatype Message = Message(authorIsBot: bool, content: string, guild: GuildId, hasChannel: bool)

  /**
   * The answers of the external services a `!play` consults: whether the
   * url is valid, the metadata lookup (None when it fails), and whether
   * joining the author's voice channel succeeds.
   */
  datatype Services = Services(validUrl: string -> bool, info: Option<Song>, joinOk: bool)

  /** The registry after an event and the effects it caused. */
  datatype Outcome = Outcome(registry: Registry, effects: seq<Effect>)

  /** The two terminal events of the audio player. */
  datatype PlayerEvent = Idle | Error(reason: string)

  const InvalidLink := "Por favor proporciona un enlace v\U{E1}lido de YouTube."
  const JoinFailed := "Hubo un error al intentar conectar al canal de voz."
  const NothingToSkip := "No hay canciones en la cola para saltar."
  const NothingToStop := "No hay canciones en reproducci\U{F3}n."
  const Stopped := "\U{1F6D1} Se ha detenido la reproducci\U{F3}n y limpiado la cola."
  const NothingPlaying := "No hay ninguna canci\U{F3}n reproduci\U{E9}ndose."
  const Paused := "\U{23F8}\U{FE0F} Canci\U{F3}n en pausa."
  const NothingPaused := "No hay ninguna canci\U{F3}n en pausa."
  const Resumed := "\U{25B6}\U{FE0F} Canci\U{F3}n reanudada."
  const QueueEmpty := "La cola est\U{E1} vac\U{ED}a."
  const QueueHeader := "\U{1F3B6} **Cola de reproducci\U{F3}n:**\n"

  /** The reply to a `!play` that queues a song behind the current one. */
  function Added(title: string): (text: string)
    ensures "\U{1F3B6} **" + title <= text
  {
    "\U{1F3B6} **" + title + "** ha sido a\U{F1}adida a la cola."
  }

  /** The announcement sent to the text channel when a song starts. */
  function NowPlaying(title: string): (text: string)
    ensures "\U{1F3B6} Ahora reproduciendo: **" + title <= text
    ensures |text| == |title| + 27 && text[|text| - 2..] == "**"
  {
    "\U{1F3B6} Ahora reproduciendo: **" + title + "**"
  }

  /** `songs[0]`, which is undefined on an empty array. */
  function Head(songs: seq<Song>): (h: Option<Song>)
    ensures h.None? <==> songs == []
    ensures h.Some? ==> h.value == songs[0]
  {
    if songs == [] then None else Some(songs[0])
  }

  /** `songs.shift()`: drops the head; an empty array stays empty. */
  function Shift(songs: seq<Song>): (rest: seq<Song>)
    ensures songs == [] ==> rest == []
    ensures songs != [] ==> [songs[0]] + rest == songs
  {
    if songs == [] then [] else songs[1..]
  }

  function Titles(songs: seq<Song>): (titles: seq<string>)
    ensures |titles| == |songs|
    ensures forall i :: 0 <= i < |songs| ==> titles[i] == songs[i].title
  {
    seq(|songs|, i requires 0 <= i < |songs| => songs[i].title)
  }

  /** The registries agree on every guild other than `g`. */
  predicate SameElsewhere(r: Registry, r': Registry, g: GuildId)
  {
    r' - {g} == r - {g}
  }

  /** The effects `Send` of a "now playing" announcement, when a channel is bound. */
  function Announce(e: Entry, song: Song): (effects: seq<Effect>)
    ensures |effects| <= 1
    ensures effects != [] <==> e.hasTextChannel
    ensures forall i :: 0 <= i < |effects| ==> effects[i].Send? && NowPlaying(song.title) == effects[i].text
  {
    if e.hasTextChannel then [Send(NowPlaying(song.title))] else []
  }

  /**
   * playSong(guild, song): with no entry, nothing; with no song, tear the
   * session down (destroy the connection if there is one, delete the
   * entry); otherwise play the song, register one more listener pair and
   * announce it.
   */
  function PlaySong(r: Registry, g: GuildId, song: Option<Song>): (res: Outcome)
    ensures SameElsewhere(r, res.registry, g)
    ensures g !in r ==> res == Outcome(r, [])
    ensures g in r && song.None? ==>
      g !in res.registry &&
      res.effects == (if r[g].hasConnection then [DestroyConnection] else [])
    ensures g in r && song.Some? ==>
      g in res.registry && res.registry[g].songs == r[g].songs &&
      res.registry[g].playing == r[g].playing &&
      res.registry[g].hasConnection == r[g].hasConnection &&
      res.registry[g].hasTextChannel == r[g].hasTextChannel &&
      res.registry[g].listeners == r[g].listeners + 1 &&
      res.effects == [Play(song.value.url)] + Announce(r[g], song.value)
  {
    if g !in r then Outcome(r, [])
    else
      var e := r[g];
      match song
      case None =>
        Outcome(r - {g}, if e.hasConnection then [DestroyConnection] else [])
      case Some(s) =>
        Outcome(r[g := e.(listeners := e.listeners + 1)], [Play(s.url)] + Announce(e, s))
  }

  /**
   * The body of one Idle or error listener: shift the head of the guild's
   * songs and call playSong with the new head.  A guild without an entry
   * is left alone.
   */
  function Advance(r: Registry, g: GuildId): (res: Outcome)
    ensures SameElsewhere(r, res.registry, g)
    ensures g !in r ==> res == Outcome(r, [])
  {
    if g !in r then Outcome(r, [])
    else
      var e := r[g].(songs := Shift(r[g].songs));
      PlaySong(r[g := e], g, Head(e.songs))
  }

  /**
   * A terminal event handled once: exactly one advance, whichever of the
   * two events it is.
   */
  function OnPlayerEvent(r: Registry, g: GuildId, ev: PlayerEvent): (res: Outcome)
    ensures SameElsewhere(r, res.registry, g)
  {
    Advance(r, g)
  }

  /**
   * The first `n` listeners of one emit, run one after the other; each is
   * an Advance on what the previous ones left.
   */
  function RunListeners(r: Registry, g: GuildId, n: nat): (res: Outcome)
    ensures SameElsewhere(r, res.registry, g)
    decreases n
  {
    if n == 0 then Outcome(r, [])
    else
      var before := RunListeners(r, g, n - 1);
      var step := Advance(before.registry, g);
      Outcome(step.registry, before.effects + step.effects)
  }

  /**
   * A terminal event as the source handles it: the player emits to every
   * listener pair registered so far, and each runs the advance.
   */
  function OnPlayerEventAsWritten(r: Registry, g: GuildId, ev: PlayerEvent): (res: Outcome)
    ensures SameElsewhere(r, res.registry, g)
  {
    if g !in r then Outcome(r, []) else RunListeners(r, g, r[g].listeners)
  }

  /** The Disconnected listener of the voice connection: delete the entry. */
  function OnDisconnect(r: Registry, g: GuildId): (res: Outcome)
    ensures g !in res.registry && SameElsewhere(r, res.registry, g)
    ensures res.effects == []
  {
    Outcome(r - {g}, [])
  }

  /** `!url || !ytdl.validateURL(url)` for `args[1]`. */
  function BadArgument(arg: Option<string>, validUrl: string -> bool): (bad: bool)
    ensures !bad <==> arg.Some? && |arg.value| > 0 && validUrl(arg.value)
  {
    arg.None? || arg.value == "" || !validUrl(arg.value)
  }

  /** The entry a first `!play` creates, before the voice channel is joined. */
  function NewEntry(song: Song, hasChannel: bool): (e: Entry)
    ensures Head(e.songs) == Some(song) && Shift(e.songs) == []
    ensures e.playing && !e.hasConnection && e.listeners == 0
    ensures e.hasTextChannel == hasChannel
  {
    Entry([song], true, false, hasChannel, 0)
  }

  /** `!play <url>`. */
  function PlayCommand(r: Registry, msg: Message, svc: Services): (res: Outcome)
    ensures SameElsewhere(r, res.registry, msg.guild)
  {
    var g := msg.guild;
    var arg := Argument(msg.content);
    if BadArgument(arg, svc.validUrl) then Outcome(r, [Reply(InvalidLink)])
    else if svc.info.None? then Outcome(r, [])  // the awaited lookup rejects
    else
      var song := svc.info.value;
      if g !in r then
        var r1 := r[g := NewEntry(song, msg.hasChannel)];
        if !svc.joinOk then
          Outcome(r1 - {g}, [Reply(JoinFailed)])
        else
          var r2 := r1[g := r1[g].(hasConnection := true)];
          var started := PlaySong(r2, g, Head(r2[g].songs));
          Outcome(started.registry, [Connect] + started.effects)
      else
        Outcome(r[g := r[g].(songs := r[g].songs + [song])], [Reply(Added(song.title))])
  }

  /** `!skip`: stop the player, which ends the track and so triggers the advance. */
  function SkipCommand(r: Registry, g: GuildId): (res: Outcome)
    ensures res.registry == r
  {
    if g !in r then Outcome(r, [Reply(NothingToSkip)]) else Outcome(r, [PlayerStop])
  }

  /** `!stop`: empty the queue and stop the player. */
  function StopCommand(r: Registry, g: GuildId): (res: Outcome)
    ensures SameElsewhere(r, res.registry, g)
  {
    if g !in r then Outcome(r, [Reply(NothingToStop)])
    else Outcome(r[g := r[g].(songs := [])], [PlayerStop, Reply(Stopped)])
  }

  /** `!pause`. */
  function PauseCommand(r: Registry, g: GuildId): (res: Outcome)
    ensures SameElsewhere(r, res.registry, g)
  {
    if g !in r || !r[g].playing then Outcome(r, [Reply(NothingPlaying)])
    else Outcome(r[g := r[g].(playing := false)], [Pause, Reply(Paused)])
  }

  /** `!resume`. */
  function ResumeCommand(r: Registry, g: GuildId): (res: Outcome)
    ensures SameElsewhere(r, res.registry, g)
  {
    if g !in r || r[g].playing then Outcome(r, [Reply(NothingPaused)])
    else Outcome(r[g := r[g].(playing := true)], [Unpause, Reply(Resumed)])
  }

  /** `!queue`. */
  function QueueCommand(r: Registry, g: GuildId): (res: Outcome)
    ensures res.registry == r && |res.effects| == 1 && res.effects[0].Reply?
  {
    if g !in r || |r[g].songs| == 0 then Outcome(r, [Reply(QueueEmpty)])
    else Outcome(r, [Reply(QueueHeader + Listing(Titles(r[g].songs)))])
  }

  /** The six command keywords, and everything else. */
  datatype Keyword = PlayKw | SkipKw | StopKw | PauseKw | ResumeKw | QueueKw | Unrecognised

  /** Which command, compared case-sensitively, the first token of the content is. */
  function KeywordOf(content: string): (k: Keyword)
    ensures k == PlayKw <==> Command(content) == "!play"
    ensures k == SkipKw <==> Command(content) == "!skip"
    ensures k == StopKw <==> Command(content) == "!stop"
    ensures k == PauseKw <==> Command(content) == "!pause"
    ensures k == ResumeKw <==> Command(content) == "!resume"
    ensures k == QueueKw <==> Command(content) == "!queue"
  {
    match Command(content)
    case "!play" => PlayKw
    case "!skip" => SkipKw
    case "!stop" => StopKw
    case "!pause" => PauseKw
    case "!resume" => ResumeKw
    case "!queue" => QueueKw
    case _ => Unrecognised
  }

  /** The `messageCreate` handler. */
  function HandleMessage(r: Registry, msg: Message, svc: Services): (res: Outcome)
    ensures SameElsewhere(r, res.registry, msg.guild)
  {
    if msg.authorIsBot then Outcome(r, [])
    else
      var g := msg.guild;
      match KeywordOf(msg.content)
      case PlayKw => PlayCommand(r, msg, svc)
      case SkipKw => SkipCommand(r, g)
      case StopKw => StopCommand(r, g)
      case PauseKw => PauseCommand(r, g)
      case ResumeKw => ResumeCommand(r, g)
      case QueueKw => QueueCommand(r, g)
      case Unrecognised => Outcome(r, [])
  }
}
