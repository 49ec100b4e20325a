# vulcan-music: the per-guild playback queue, in Dafny

vulcan-music is a Discord bot that plays the audio of YouTube videos in a
voice channel. It keeps one playback queue per guild (Discord server) in a
module-level `Map`, the `queue` registry. Six chat commands drive it:
`!play <url>`, `!skip`, `!stop`, `!pause`, `!resume` and `!queue`. The
player's end-of-track and error events advance the queue through
`playSong`.

This project models that core as a state machine over the registry, a map
from guild id to queue entry. Each entry holds:

- the songs, a sequence of `{title, url}`;
- the `playing` flag;
- whether the voice connection and the text channel are set;
- the number of Idle/error listener pairs registered on the entry's audio
  player.

Everything the handlers do outside the registry is appended as a value to
an effect log: connect, play a url, stop, pause, unpause, destroy the
connection, reply to the message, or send to the text channel.

- `options.dfy`, module `Options`: the `Option` datatype, `None` standing
  for `undefined`.
- `text.dfy`, module `Text`: the pure string functions. It has the
  single-space tokenisation (`split(' ')`) with its inverse `join`, the
  command keyword and its argument, the decimal rendering of a position,
  and the numbered `!queue` listing.
- `queue.dfy`, module `Queue`: the entities and the reply texts. It has one
  function per transition: `playSong`, one listener's advance, a terminal
  event handled once and handled as written, the Disconnected listener,
  each command and the whole `messageCreate` handler. Each takes the
  registry before and returns the registry after plus the effects caused.
- `properties.dfy`, module `Properties`: what the handlers promise, proved
  over those functions. This covers frames, the `!play` cases, `!pause` and
  `!resume`, the teardown after `!stop` and at the end of the queue, and
  the registry invariant.
- `bot.dfy`, module `Bot`: the class `MusicBot`, whose `queue` map and
  `log` fields are updated in place as the source does. Each method is
  proved to leave exactly the state and log that the matching `Queue`
  function gives.
- `scenarios.dfy`, module `Scenarios`: whole sessions from an empty
  registry, including the finding below.

Listener accumulation. Every `playSong` call that plays a song registers a
new Idle listener and a new error listener on the same player
(app.js:126-135). Both are modelled. The entry's `listeners` field counts
the registered pairs. `OnPlayerEventAsWritten` runs that many advances in a
row, as Node's event emitter calls every listener registered when the event
is emitted. `OnPlayerEvent` runs exactly one advance per terminal event,
which is the behaviour the code evidently intends. The rest of the model
and its lemmas use `OnPlayerEvent`. The class offers both.

Three behaviours of the code that are easy to misread:

- Tokens are split on a single space, not on any whitespace. Two spaces in
  a row make an empty argument, which is rejected as an invalid link.
- A first `!play` does not reply to the message. It only sends the "now
  playing" announcement to the channel.
- An advance does not touch `playing`. After `!pause` followed by `!skip`,
  the next song is played while `playing` stays false.

## Model

| member | source | states |
|---|---|---|
| Text.Split | app.js:25 | `split(' ')` gives at least one piece, no piece contains the separator, and joining the pieces with the separator gives back the content |
| Text.Join | app.js:97 | `join` starts with the first piece, puts the separator right after it when there are two or more, and is the piece itself when there is one |
| Text.SplitJoin | app.js:25 | splitting undoes joining whenever no piece contains the separator |
| Text.Command | app.js:25-26 | `args[0]` contains no space, is a prefix of the content, and is followed by a space or the end: the text before the first space |
| Text.Argument | app.js:25-31 | `args[1]` is absent exactly when the content has no space; otherwise it is the space-free text after the first space, up to the next space or the end |
| Text.CommandArgument | app.js:25-31 | a content `keyword arg rest` with `rest` empty or starting with a space has that keyword and that argument |
| Text.DecimalString | app.js:97 | `${index + 1}` is a non-empty string of decimal digits without a leading zero |
| Text.DecimalRoundTrip | app.js:97 | reading those digits back gives the number |
| Text.NumberedLines | app.js:97 | the `map` gives one line per title, line k starting with the decimal digits of k+1 and ending with the k-th title, and newline-free when that title is |
| Text.Listing | app.js:97 | the `join('\n')` of the numbered lines: empty for no titles, `1. ` and the title for one, and starting with the first line and a newline for more |
| Text.ListingLines | app.js:97 | the listing, split at newlines, has exactly one line per title in queue order: line k is `k+1`, `. ` and the k-th title |
| Queue.Head | app.js:62 | `songs[0]` is absent exactly for an empty queue and otherwise the first song |
| Queue.Shift | app.js:127 | `shift` removes exactly the head, and leaves an empty queue empty |
| Queue.Titles | app.js:97 | the titles of the songs, one per song, in order |
| Queue.Announce | app.js:137-141 | at most one effect: the "now playing" message sent to the text channel exactly when one is set |
| Queue.Added | app.js:75 | the reply to a queued song starts with the note emoji and the bold title |
| Queue.NowPlaying | app.js:138 | the announcement is the note emoji, "Ahora reproduciendo: " and the title in bold, ending with the closing bold marker |
| Queue.PlaySong | app.js:102-142 | no entry: nothing. No song: entry deleted, and the connection destroyed exactly when there is one. A song: plays it, then announces it when a text channel is set; queue, `playing`, connection and channel kept, one more listener pair. Other guilds unchanged |
| Queue.Advance | app.js:126-129 | a listener changes only its own guild, and does nothing when the guild has no entry |
| Queue.OnPlayerEvent | app.js:126-135 | a terminal event handled once changes only its own guild |
| Queue.RunListeners | app.js:124-135 | the listeners of one emit, run in a row, change only their own guild |
| Queue.OnPlayerEventAsWritten | app.js:124-135 | a terminal event delivered to every registered listener pair changes only its own guild |
| Queue.OnDisconnect | app.js:64-66 | the Disconnected listener deletes the guild's entry, causes no effect and leaves every other guild alone |
| Queue.BadArgument | app.js:32 | the url is accepted exactly when `args[1]` is present, non-empty and valid |
| Queue.NewEntry | app.js:42-51 | the entry a first `!play` builds holds only the new song, is playing, has no connection and no listener yet, and has a text channel exactly when the message has one |
| Queue.PlayCommand | app.js:30-76 | `!play` changes no other guild's entry |
| Queue.SkipCommand | app.js:77-79 | `!skip` never changes the registry |
| Queue.StopCommand | app.js:80-84 | `!stop` changes no other guild's entry |
| Queue.PauseCommand | app.js:85-89 | `!pause` changes no other guild's entry |
| Queue.ResumeCommand | app.js:90-94 | `!resume` changes no other guild's entry |
| Queue.QueueCommand | app.js:95-98 | `!queue` never changes the registry and answers with exactly one reply |
| Queue.KeywordOf | app.js:30-95 | the command is `!play`, `!skip`, `!stop`, `!pause`, `!resume` or `!queue` exactly when the first token is that text, case included |
| Queue.HandleMessage | app.js:22-100 | a message changes at most the entry of its own guild |
| Properties.BotMessageIgnored | app.js:23 | a message whose author is a bot leaves the registry unchanged and causes no effect |
| Properties.UnknownCommandIgnored | app.js:22-100 | a first token that is none of the six commands changes nothing and causes nothing |
| Properties.ConnectOnlyWhenCreated | app.js:41-76 | a message opens a voice connection if and only if it created its guild's entry, so later `!play`s never open a second one |
| Properties.PlayConnectsOnlyWhenCreating | app.js:41-76 | the same, for the `!play` branch alone |
| Properties.HandleMessageKeepsInv | app.js:41-99 | every handled message keeps each registered entry connected with at least one listener pair |
| Properties.PlayCommandKeepsInv | app.js:41-76 | `!play` keeps each registered entry connected with at least one listener pair |
| Properties.PlayRejectsBadArgument | app.js:31-34 | a missing, empty or invalid url gets the invalid-link reply and changes nothing |
| Properties.PlayLookupFailureIgnored | app.js:35 | when the metadata lookup rejects, the handler stops with no state change and no reply |
| Properties.PlayCreatesEntry | app.js:41-62 | `!play` on an idle guild adds exactly one entry (only the song, playing, connected, one listener pair), then connects, plays the song and announces it |
| Properties.PlayJoinFailureRollsBack | app.js:53-72 | when joining the voice channel fails, the entry just created is deleted: registry as before, one error reply |
| Properties.PlayAppends | app.js:73-75 | `!play` on a guild with an entry only appends the song to its queue and replies: no connection, `playing` and all else unchanged |
| Properties.DisconnectRemovesEntry | app.js:64-66 | the Disconnected listener removes exactly the guild's key and keeps the invariant |
| Properties.PauseOnlyWhenPlaying | app.js:85-89 | `!pause` acts if and only if an entry exists and is playing, and then only clears `playing`; otherwise one reply and no change |
| Properties.ResumeOnlyWhenPaused | app.js:90-94 | `!resume` acts if and only if an entry exists and is paused, and then only sets `playing`; otherwise one reply and no change |
| Properties.PauseTwiceIsNoOp | app.js:85-89 | a second `!pause` in a row only replies |
| Properties.ResumeTwiceIsNoOp | app.js:90-94 | a second `!resume` in a row only replies |
| Properties.PauseResumeInverse | app.js:85-94 | an effective `!resume` undoes an effective `!pause` and vice versa |
| Properties.SkipOnlyStopsPlayer | app.js:77-79 | `!skip` keeps the registry; it stops the player when there is an entry and replies otherwise |
| Properties.StopClearsQueue | app.js:80-84 | `!stop` empties the guild's queue and stops the player, the rest of the entry unchanged; without an entry it only replies |
| Properties.QueueListsTitles | app.js:95-98 | `!queue` keeps the registry; without entry or songs it says the queue is empty, otherwise it replies with the header and the numbered titles |
| Properties.QueueListingLines | app.js:97 | the lines of the `!queue` reply are the songs' titles in order, numbered from 1 |
| Properties.IdleAndErrorAgree | app.js:126-135 | the Idle and the error listener leave the same registry and effects, both handled once and as written |
| Properties.AdvancePlaysNext | app.js:126-128 | with a next song, an advance removes exactly the head, plays and announces the new head, `playing` and connection untouched |
| Properties.AdvancePlaysOneUrl | app.js:126-128 | an advance with a next song plays exactly one url, the new head's |
| Properties.AdvanceTearsDown | app.js:103-116 | without a next song, an advance deletes the entry and destroys the connection if there is one |
| Properties.PlayerEventKeepsInv | app.js:126-135 | a terminal event keeps the registry invariant |
| Properties.AdvanceKeepsInv | app.js:126-129 | one advance keeps the registry invariant |
| Properties.RunListenersKeepsInv | app.js:124-135 | any number of listeners run in a row keep the registry invariant |
| Properties.StopThenEventTearsDown | app.js:80-84 | after `!stop`, the stopped track's terminal event always reaches the teardown: entry deleted, connection destroyed |
| Properties.EventsAdvanceInOrder | app.js:124-135 | k terminal events on a longer queue remove exactly the first k songs and play the next k in order, `playing` and connection unchanged |
| Properties.EventsExhaustQueue | app.js:103-116 | a queue of n songs is gone after n terminal events: the entry is deleted, destroying the connection last |
| Bot.MusicBot.constructor | app.js:16 | the registry starts empty, with no effects, and satisfies the invariant |
| Bot.MusicBot.PlaySong | app.js:102-142 | updates the registry in place and appends to the log exactly as `Queue.PlaySong`; an internal step, also called on the entry `!play` is still building |
| Bot.MusicBot.RunListener | app.js:126-129 | one listener body in place, exactly as `Queue.Advance`, keeping the invariant |
| Bot.MusicBot.OnPlayerEvent | app.js:126-135 | a terminal event handled once, in place, keeping the invariant |
| Bot.MusicBot.OnPlayerEventAsWritten | app.js:124-135 | every registered listener run in a loop, in place, exactly as `Queue.OnPlayerEventAsWritten`, keeping the invariant |
| Bot.MusicBot.RunAllListeners | app.js:126-135 | a `for` loop running the listeners of one emit in registration order, in place, exactly as `Queue.RunListeners`, keeping the invariant after every listener |
| Bot.MusicBot.OnDisconnect | app.js:64-66 | deletes the guild's entry in place, keeping the invariant |
| Bot.MusicBot.OnMessage | app.js:22-100 | the `messageCreate` handler in place, exactly as `Queue.HandleMessage`, keeping the invariant |
| Bot.MusicBot.OnPlay | app.js:30-76 | the `!play` branch in place, exactly as `Queue.PlayCommand`; an internal step of `OnMessage`, which keeps the invariant |
| Scenarios.ThreePlays | app.js:41-75 | three valid `!play`s on an idle guild give one entry holding the three songs in order with one listener pair |
| Scenarios.PileUpDropsQueuedSong | app.js:124-135 | as written: after `!play` A, B, C and the end of A, the end of B starts C and then tears the session down, so C is dropped |
| Scenarios.OneAdvancePerEventKeepsQueuedSong | app.js:124-135 | one advance per event: the end of B leaves C playing and queued, and only the end of C tears down |
| Scenarios.PlaySkipStopSession | app.js:22-142 | `!play v1`, `!play v2`, `!skip`, end of track, `!stop`, end of track: one entry and one connection, v2 appended and then played, and finally the entry deleted and the connection destroyed |

## Findings

| source | as written | input that shows it | evidently intended | confidence | as-written member | corrected member |
|---|---|---|---|---|---|---|
| app.js:124-135 | every `playSong` that plays a song adds another Idle and error listener to the same player, so one terminal event runs one advance per song started so far | `!play A`, `!play B`, `!play C`, then the end of A, then the end of B: the second event shifts twice, starting C and then tearing the session down | one advance per terminal event, so C plays to its end | high; not executed, and it rests on the event emitter calling every registered listener | Scenarios.PileUpDropsQueuedSong | Scenarios.OneAdvancePerEventKeepsQueuedSong |

## Left out

- Discord client construction, gateway intents, `client.login` and `dotenv` (app.js:1-20, 144) are not modelled. They are gateway and credential plumbing.
- Properties.PlayLookupFailureIgnored: `await ytdl.getInfo(url)` (app.js:35) has no `try`, so a rejected lookup escapes the `async` `messageCreate` listener uncaught. The model states only that the handler stops with no state change and no reply. How the runtime reacts to the escaped rejection is not modelled: an unhandled rejection, or an `error` event on the client, ends the process by default and loses every guild's entry.
- `ytdl.validateURL`, `ytdl.getInfo` and the `ytdl` audio stream are foreign calls. URL validity is the `validUrl` predicate of `Services`. The metadata lookup is `Services.info`, where None stands for a rejected lookup. Streaming is the `Play(url)` effect.
- `joinVoiceChannel`, `connection.subscribe`, `createAudioPlayer` and `createAudioResource` are voice internals. They appear as the `Connect` and `Play` effects and the `hasConnection` flag. Any failure of the join, including an author who is not in a voice channel, is `Services.joinOk == false`. Other exceptions inside that `try` are not modelled.
- The audio player is not a separate object: each entry implicitly owns one.
- Each handler runs as one atomic transition, so `async`/`await` interleavings are not modelled. In particular, the entry is looked up before the awaited metadata lookup, so two `!play`s racing on an idle guild could both create an entry.
- Events of orphaned players are not modelled. A player whose entry was deleted by the Disconnected listener keeps its listeners, and those still reach `playSong` for whatever entry the guild has later. The model delivers terminal events only to the guild's current entry, and treats an event for a guild without an entry as doing nothing.
- The Disconnected listener deletes whatever entry the guild has at that moment, as in the source. Disconnects of earlier connections are not told apart.
- Whether the voice library also emits Idle after an error is library behaviour and is not modelled. Each terminal event is handled on its own.
- `console.log`, `console.error` and `console.warn` (app.js:19, 69, 105, 132, 140) only print and are not modelled.
