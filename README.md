# A model of the exeDAW core in Dafny

This project models the non-graphical core of exeDAW, a small digital audio
workstation written in C++. It covers these parts:

- **The note timeline** (`SequencerModel`). It holds tracks of notes timed in
  ticks at 480 pulses per quarter note. Notes are inserted and then sorted by
  start tick, and removed by index. Notes carry selection flags, which drive a
  bulk delete and a round-to-nearest grid quantization.
- **The two playback state machines.** `TransportControl` has a callback that
  is told each new state. `AudioPlayer` keeps a position bounded by the
  duration and rewinds when played at the end.
- **The channel registry** (`SequencerChannel`, `SequencerEngine`). It keeps a
  vector and an id map in agreement, and its ids only grow (the counter is
  unbounded here; see "Left out").
- **The application object** (`DAWApplication`). It passes whole-session
  play, stop and pause commands to the transport and to every attached
  player.
- **Audio tracks** (`AudioTrack`):
  - the RIFF/WAVE header parse and chunk scan over a byte sequence;
  - PCM decoding at 8, 16, 24 and 32 bits;
  - the name taken from the file path;
  - the 5-second fallback tone;
  - sample access;
  - the min/max envelope.
- **The waveform visualizer** (`WaveformVisualizer`). It builds one min/max
  point per pixel column.
- **The editing rules of the piano roll** (`SequencerView`):
  - hit testing;
  - select-on-press;
  - dragging the selected notes;
  - wheel zoom;
  - the keyboard shortcuts.
- **The integer layout arithmetic of the main window** (`ModernUILayout`):
  the region partition, grid cells, and the in-place row and column alignment.

Each C++ class whose methods update fields in place is a Dafny `class`, with
`modifies` frames on its methods. Notes and tracks are values, so they are
datatypes. Loops in the source are `while`/`for` loops here, proved against
specification functions (`FindData`, `DecodePcm16`, `PeakEnvelope`,
`PointAt`, `ShiftSelected`, `SlotStart`/`SlotSize`, …). Lemmas then state what
the source promises about those functions.

The model replaces what it cannot see with inputs:

- **Files.** A file to read is `Option<seq<byte>>`, where `None` means it
  cannot be opened.
- **Floating-point content.** Floats are `real`. Sine content comes in as a
  parameter (`tone`, `wave`: frame index to value). Reading four bytes as an
  IEEE-754 float is a parameter too (`asFloat`).
- **The transport callback.** It is a flag saying whether one is installed.
  The states it has been told are kept in the `notified` log.
- **Screen geometry.** The view's geometry is a parameter `noteRect` (note to
  pixel rectangle). A drag's horizontal offset arrives already converted to
  ticks.

Modules: `Numeric` (numeric.dfy), `Sequencing`, `Transport`, `Playback`,
`Channels`, `Engine`, `Application`, `Wav`, `Tracks`, `Waveform`, `PianoRoll`,
`Layout`.

The RIFF WAVE form asks for a pad byte after an odd-sized chunk; the code
(AudioTrack.cpp:166) adds none, and the model follows the code: the chunk scan
skips exactly the declared size.

## Model

| member | source | states |
|---|---|---|
| Numeric.Clamp | AudioTrack.cpp:256-264 | the clamped value always lies in [lo, hi] |
| Numeric.ClampIsNearest | AudioPlayer.cpp:79-82 | a clamped value is the point of [lo, hi] nearest to the input, and inputs inside the range are kept |
| Numeric.MinWithZero | WaveformVisualizer.cpp:50-58 | a running minimum started at 0 is at most 0, at most every element, and is 0 or one of the elements |
| Numeric.MaxWithZero | WaveformVisualizer.cpp:50-58 | a running maximum started at 0 is at least 0, at least every element, and is 0 or one of the elements |
| Numeric.MinWithZeroStep | WaveformVisualizer.cpp:53-57 | one more loop step folds the next sample into the running minimum |
| Numeric.MaxWithZeroStep | WaveformVisualizer.cpp:53-57 | one more loop step folds the next sample into the running maximum |
| Numeric.PeakAbs | WaveformVisualizer.cpp:70-78 | the peak is non-negative, bounds every magnitude and is 0 or one of them |
| Numeric.MeanSquare | WaveformVisualizer.cpp:114-128 | the mean square is non-negative and 0 for an empty buffer |
| Numeric.MeanSquareAtMost | AudioTrack.cpp:319-333 | the mean square never exceeds the square of a bound on every magnitude, so the RMS never exceeds the peak |
| Numeric.Span | WaveformVisualizer.cpp:46-48 | column x covers [x*spp, min(x*spp+spp, size)), and is empty past the end |
| Numeric.SpanBetween | WaveformVisualizer.cpp:46-53 | the loop bounds of a column select exactly that column's span |
| Numeric.SpansCoverPrefix | WaveformVisualizer.cpp:44-58 | the columns 0..n-1, laid end to end, are the buffer's first n*spp samples (or all of it) |
| Numeric.LittleEndianBound | AudioTrack.h:11-34 | an n-byte little-endian field is below 256^n |
| Numeric.LittleEndianRoundTrip | AudioTrack.h:11-34 | a value written as n little-endian bytes reads back as itself wherever it sits |
| Sequencing.GridSize | SequencerModel.cpp:81-90 | each quantize setting's grid is positive and even, so half a grid is exact |
| Sequencing.QuantizeNote | SequencerModel.cpp:77-93 | Off returns the tick unchanged; any other setting gives a tick that still fits in 32 bits, under the room `QuantizeFits` admits |
| Sequencing.RoundToGridIsNearest | SequencerModel.cpp:92 | `((b + g/2) / g) * g` is a multiple of g within g/2 of b |
| Sequencing.RoundToGridIdempotent | SequencerModel.cpp:92 | rounding a rounded tick changes nothing |
| Sequencing.RoundToGridMonotone | SequencerModel.cpp:92 | rounding keeps the order of two ticks |
| Sequencing.QuantizeIsNearestGridLine | SequencerModel.cpp:77-93 | with a grid on, QuantizeNote gives a grid multiple within half a grid of the input |
| Sequencing.QuantizeIdempotent | SequencerModel.cpp:77-93 | quantizing twice is quantizing once, when the uint32 sum has room |
| Sequencing.QuantizeMonotone | SequencerModel.cpp:77-93 | quantizing never reverses two ticks |
| Sequencing.QuantizeBeatRoundsDown | SequencerModel.cpp:81-92 | on the Beat grid 239 goes to 0 and 719 to 480 |
| Sequencing.QuantizeBeatRoundsUp | SequencerModel.cpp:81-92 | on the Beat grid the half-way ticks 240 and 720 go up to 480 and 960 |
| Sequencing.InsertByStart | SequencerModel.cpp:45-48 | inserting into a sorted track gives a sorted permutation of the notes plus the new one |
| Sequencing.SortByStart | SequencerModel.cpp:47-48 | the unstable sort yields a sorted permutation of its input, nothing more |
| Sequencing.WithSelection | SequencerModel.cpp:95-115 | every note keeps everything but its selection flag, which becomes the given value |
| Sequencing.WithoutSelectedContents | SequencerModel.cpp:117-134 | a bulk delete leaves no selected note and keeps every unselected note with its multiplicity |
| Sequencing.WithoutSelected | SequencerModel.cpp:117-134 | the erase loop never lengthens a track, and an unselected first note stays first |
| Sequencing.WithoutSelectedKeepsSorted | SequencerModel.cpp:117-134 | a bulk delete keeps the survivors in their relative order, so a sorted track stays sorted |
| Sequencing.QuantizedSelection | SequencerModel.cpp:136-148 | a quantize pass changes only the start tick of selected notes and keeps the note count |
| Sequencing.QuantizedSelectionIdempotent | SequencerModel.cpp:136-148 | a second quantize pass changes nothing |
| Sequencing.QuantizeAllKeepsSorted | SequencerModel.cpp:136-148 | with every note selected, quantizing keeps a sorted track sorted |
| Sequencing.PartialQuantizeCanUnsort | SequencerModel.cpp:136-148 | with only the first note selected, [300, 400] becomes [480, 400]: the pass does not re-sort |
| Sequencing.AddThreeNotesExample | SequencerModel.cpp:41-50 | adding starts 500, 100, 300 to an empty track reads back 100, 300, 500 |
| Sequencing.SequencerModel.constructor | SequencerModel.cpp:4-8 | no tracks, playhead 0, loop [0, 1920) off, tempo 120, time signature 4, quantize off |
| Sequencing.SequencerModel.AddTrack | SequencerModel.cpp:15-20 | appends a track with the given name, default volume 100, colour 0xFF5588FF and no notes |
| Sequencing.SequencerModel.RemoveTrack | SequencerModel.cpp:22-28 | erases exactly the indexed track; out of range changes nothing |
| Sequencing.SequencerModel.ClearTracks | SequencerModel.cpp:30-33 | no tracks remain |
| Sequencing.SequencerModel.GetTrackMutable | SequencerModel.cpp:35-39 | the indexed track, or nothing exactly when the index is out of range |
| Sequencing.SequencerModel.AddNote | SequencerModel.cpp:41-50 | the target track becomes a sorted permutation of its notes plus the new one; other tracks and out-of-range calls change nothing |
| Sequencing.SequencerModel.RemoveNote | SequencerModel.cpp:52-58 | erases exactly the indexed note, keeping the rest in order; out of range changes nothing |
| Sequencing.SequencerModel.ClearNotes | SequencerModel.cpp:60-66 | empties the indexed track; out of range changes nothing |
| Sequencing.SequencerModel.SetTempoAPM | SequencerModel.h:61 | stores the tempo unchecked |
| Sequencing.SequencerModel.SetTimeSignature | SequencerModel.h:64 | stores the time signature unchecked |
| Sequencing.SequencerModel.SetPlayheadBeat | SequencerModel.h:67 | stores the playhead unchecked |
| Sequencing.SequencerModel.SetLoopEnabled | SequencerModel.h:74 | stores the loop flag |
| Sequencing.SequencerModel.SetQuantize | SequencerModel.h:77 | stores the quantize setting unchecked |
| Sequencing.SequencerModel.SetLoopRange | SequencerModel.cpp:68-75 | adopts both ends only when start < end, otherwise keeps both |
| Sequencing.SequencerModel.QuantizeTick | SequencerModel.cpp:77-93 | Off returns the tick; otherwise a multiple of the grid within half a grid of it |
| Sequencing.SequencerModel.SelectAll | SequencerModel.cpp:95-104 | every note of the indexed track is selected and no other track changes; out of range changes nothing |
| Sequencing.SequencerModel.DeselectAll | SequencerModel.cpp:106-115 | every flag of every track is cleared and nothing else changes |
| Sequencing.SequencerModel.DeleteSelected | SequencerModel.cpp:117-134 | each track keeps exactly its unselected notes, in their original order |
| Sequencing.SequencerModel.QuantizeSelected | SequencerModel.cpp:136-148 | each track's selected notes get their start quantized, in place, without re-sorting |
| Transport.PausedFrom | TransportControl.cpp:34-44 | Pause yields PAUSED exactly from PLAYING or PAUSED and leaves every other state alone |
| Transport.ResumedFrom | TransportControl.cpp:46-56 | Resume yields PLAYING exactly from PAUSED or PLAYING and leaves every other state alone |
| Transport.PauseThenResume | TransportControl.cpp:34-56 | pause then resume returns PLAYING to PLAYING and leaves STOPPED and RECORDING unchanged |
| Transport.TransportControl.constructor | TransportControl.cpp:3-9 | STOPPED at 0, 120 BPM, 4/4, loop off over [0, 0], 44100 Hz, no callback |
| Transport.TransportControl.ExactlyOneStateQuery | TransportControl.cpp:72-90 | exactly one of IsPlaying, IsPaused, IsRecording and IsStopped holds |
| Transport.TransportControl.IsPlaying | TransportControl.cpp:72-75 | while playing, Pause takes the transport to PAUSED and Resume leaves it PLAYING |
| Transport.TransportControl.IsPaused | TransportControl.cpp:77-80 | while paused, Resume takes the transport to PLAYING and Pause leaves it PAUSED |
| Transport.TransportControl.IsRecording | TransportControl.cpp:82-85 | while recording, neither Pause nor Resume moves the transport |
| Transport.TransportControl.IsStopped | TransportControl.cpp:87-90 | while stopped, neither Pause nor Resume moves the transport |
| Transport.TransportControl.Play | TransportControl.cpp:15-22 | PLAYING from any state, and the callback hears PLAYING even when already playing |
| Transport.TransportControl.Stop | TransportControl.cpp:24-32 | STOPPED with the playhead at 0, and the callback hears STOPPED |
| Transport.TransportControl.Pause | TransportControl.cpp:34-44 | only PLAYING changes (to PAUSED), and only then is the callback told |
| Transport.TransportControl.Resume | TransportControl.cpp:46-56 | only PAUSED changes (to PLAYING), and only then is the callback told |
| Transport.TransportControl.Record | TransportControl.cpp:58-65 | RECORDING from any state, and the callback hears RECORDING |
| Transport.TransportControl.SetPlayheadPosition | TransportControl.cpp:92-95 | stores the playhead unchecked |
| Transport.TransportControl.SetTempo | TransportControl.cpp:102-108 | adopts a positive tempo, keeps the old one otherwise |
| Transport.TransportControl.SetTimeSignature | TransportControl.cpp:115-122 | adopts both parts only when both are non-zero |
| Transport.TransportControl.SetLoopEnabled | TransportControl.cpp:130-133 | stores the loop flag |
| Transport.TransportControl.SetLoopRange | TransportControl.cpp:140-147 | adopts both ends only when start < end |
| Transport.TransportControl.SetSampleRate | TransportControl.cpp:155-161 | adopts a non-zero rate, keeps the old one otherwise |
| Transport.TransportControl.SetPlaybackCallback | TransportControl.cpp:168-171 | installs or removes the single callback slot |
| Transport.PlayPauseResume | TransportControl.cpp:15-56 | play, pause, resume ends PLAYING with the playhead unchanged; an installed callback hears PLAYING, PAUSED, PLAYING |
| Playback.PlayPosition | AudioPlayer.cpp:20-27 | a position below the duration is kept, one at or past the end becomes 0, so the result is below the duration or 0 |
| Playback.PlayPositionIdempotent | AudioPlayer.cpp:20-27 | a second Play moves the position no further |
| Playback.AudioPlayer.constructor | AudioPlayer.cpp:6-9 | STOPPED at position 0 with volume 1 and an empty buffer |
| Playback.AudioPlayer.Duration | AudioPlayer.cpp:64-67 | the whole frames in the buffer: samples over channels, truncated |
| Playback.AudioPlayer.Play | AudioPlayer.cpp:20-27 | PLAYING, rewound to 0 only when at or past the end; position stays within the duration |
| Playback.AudioPlayer.Stop | AudioPlayer.cpp:29-33 | STOPPED at position 0 |
| Playback.AudioPlayer.Pause | AudioPlayer.cpp:35-41 | PAUSED only from PLAYING; other states unchanged |
| Playback.AudioPlayer.Resume | AudioPlayer.cpp:43-49 | PLAYING only from PAUSED; other states unchanged |
| Playback.AudioPlayer.SetPosition | AudioPlayer.cpp:51-57 | adopts a frame up to and including the duration, so position <= duration is kept |
| Playback.AudioPlayer.SetVolume | AudioPlayer.cpp:79-82 | the volume is the input clamped to [0, 1] |
| Playback.AudioPlayer.LoadAudioFile | AudioPlayer.cpp:89-117 | always true; 44100 Hz, stereo, 16-bit, path stored, 441000 frames with sample k equal to frame k/2's value |
| Playback.LoadedChannelsAgree | AudioPlayer.cpp:105-114 | after loading, left and right of every frame are equal |
| Channels.SequencerChannel.constructor | SequencerChannel.cpp:3-7 | stores id, name and type; volume 1, pan 0, not muted, not solo, no player |
| Channels.SequencerChannel.SetChannelName | SequencerChannel.cpp:24-27 | changes the name; id and type are constants |
| Channels.SequencerChannel.AssignAudioPlayer | SequencerChannel.cpp:34-52 | true exactly for a non-null player, which replaces the old one; null keeps it; afterwards HasAudioPlayer holds exactly when a player was given or one was already attached |
| Channels.SequencerChannel.RemoveAudioPlayer | SequencerChannel.cpp:49-57 | no player remains, so HasAudioPlayer is false |
| Channels.SequencerChannel.SetVolume | SequencerChannel.cpp:59-62 | the volume is the input clamped to [0, 1] |
| Channels.SequencerChannel.SetPan | SequencerChannel.cpp:69-72 | the pan is the input clamped to [-1, 1] |
| Channels.SequencerChannel.SetMuted | SequencerChannel.cpp:79-82 | stores the mute flag |
| Channels.SequencerChannel.SetSolo | SequencerChannel.cpp:89-92 | stores the solo flag |
| Engine.IdsCount | SequencerEngine.cpp:13-21 | strictly increasing ids are distinct, so there are as many ids as channels |
| Engine.IdsAppend | SequencerEngine.cpp:16-18 | appending a channel adds exactly its id |
| Engine.IdsRemove | SequencerEngine.cpp:73-76 | erasing one position removes exactly that id and keeps ids increasing |
| Engine.RegistryAppend | SequencerEngine.cpp:13-21 | appending with the counter's id and advancing the counter keeps vector, map and counter in agreement |
| Engine.RegistryRemove | SequencerEngine.cpp:66-80 | erasing from both views keeps them in agreement |
| Engine.SequencerEngine.constructor | SequencerEngine.cpp:4-6 | no channels; the first id will be 1 |
| Engine.SequencerEngine.MapAndVectorAgreeInSize | SequencerEngine.cpp:50-53 | the map and the vector always hold the same number of channels |
| Engine.SequencerEngine.CreateChannel | SequencerEngine.cpp:13-21 | a fresh channel with the counter's id, appended and mapped; the counter grows by one |
| Engine.SequencerEngine.GetChannel | SequencerEngine.cpp:23-31 | null exactly for an unknown id, otherwise the registered channel with that id |
| Engine.SequencerEngine.GetChannelByName | SequencerEngine.cpp:33-43 | the earliest-created channel with the name, or null when none has it |
| Engine.SequencerEngine.GetChannelCount | SequencerEngine.cpp:50-53 | the vector's size, equal to the map's |
| Engine.SequencerEngine.GetChannelIdCounter | SequencerEngine.cpp:113-116 | at least 1 and above every id in use |
| Engine.SequencerEngine.UpdateChannel | SequencerEngine.cpp:55-64 | renames and reports true exactly when the id exists |
| Engine.SequencerEngine.DeleteChannel | SequencerEngine.cpp:66-80 | true exactly for a known id, which leaves both views with the others in order; otherwise nothing changes; the counter is untouched |
| Engine.SequencerEngine.DeleteAllChannels | SequencerEngine.cpp:82-86 | both views empty, counter kept |
| Engine.SequencerEngine.LoadAudioToChannel | SequencerEngine.cpp:88-101 | succeeds exactly when the channel exists, attaching a freshly loaded player |
| Engine.SequencerEngine.AssignPlayerToChannel | SequencerEngine.cpp:103-111 | true exactly for a known id and a non-null player, which is then attached |
| Engine.CreateTwoChannels | SequencerEngine.cpp:13-31 | two creations in a row get consecutive ids and both are found by id |
| Engine.DeleteThenCreate | SequencerEngine.cpp:13-80 | a channel created after a delete never reuses any earlier id |
| Application.PlayersAppendUnattached | DAWApplication.cpp:40-43 | a new channel without a player adds no player to the fan-out |
| Application.PlayEach | DAWApplication.cpp:55-61 | every attached player is PLAYING, rewound only if at its end |
| Application.StopEach | DAWApplication.cpp:69-75 | every attached player is STOPPED at position 0 |
| Application.PauseEach | DAWApplication.cpp:83-89 | every attached player that was PLAYING is PAUSED, others unchanged |
| Application.DAWApplication.constructor | DAWApplication.cpp:3-8 | a fresh registry with no channels and counter 1, a stopped transport with an empty callback log, and a visualizer with no samples and an empty cache |
| Application.DAWApplication.Initialize | DAWApplication.cpp:14-23 | 44100 Hz, 120 BPM, 4/4, loop off; returns true |
| Application.DAWApplication.AddTrack | DAWApplication.cpp:40-43 | a new AUDIO channel with the given name and the next registry id |
| Application.DAWApplication.LoadAudioFile | DAWApplication.cpp:45-48 | succeeds exactly when the channel id exists, leaving a player with that path on it |
| Application.DAWApplication.PlayAll | DAWApplication.cpp:50-62 | transport PLAYING (callback told), then every attached player PLAYING |
| Application.DAWApplication.StopAll | DAWApplication.cpp:64-76 | transport STOPPED at 0, every attached player STOPPED at 0 |
| Application.DAWApplication.PauseAll | DAWApplication.cpp:78-90 | transport and each player paused only if it was PLAYING; the callback is told PAUSED exactly when the transport was PLAYING |
| Application.DAWApplication.GetTrackCount | DAWApplication.cpp:92-95 | the registry's channel count |
| Wav.ReadFormat | AudioTrack.cpp:138 | the packed 24-byte format chunk read field by field, each fitting its width |
| Wav.ParseWav | AudioTrack.cpp:128-170 | success needs "RIFF", "WAVE", "fmt " in place and a data chunk found by the scan from past the format chunk and its extra bytes |
| Wav.ScanStart | AudioTrack.cpp:144-148 | the scan starts past the 24-byte format chunk, and right after the format chunk's declared body when that is at least 16 bytes |
| Wav.FindData | AudioTrack.cpp:150-169 | a found chunk follows a fully read tag and starts inside the file; on a good stream at least 8 bytes past the scan start; on a failed stream at the end of the file with size 0 |
| Wav.ParseWAVHeader | AudioTrack.cpp:128-170 | the header parse with its chunk loop computes exactly ParseWav |
| Wav.ScanChunks | AudioTrack.cpp:150-169 | the tag/size/skip loop computes exactly FindData |
| Wav.FindDataFindsDataTag | AudioTrack.cpp:154-163 | a scan that ends on a good stream ends right after a "data" tag and its size, inside the file |
| Wav.HeaderBytes | AudioTrack.h:11-16 | the RIFF header is 12 bytes |
| Wav.FormatBytes | AudioTrack.h:18-28 | the format chunk is 24 bytes |
| Wav.DataHeaderBytes | AudioTrack.h:30-34 | the data chunk header is 8 bytes |
| Wav.WavBytes | AudioTrack.h:10-35 | a canonical file is 44 bytes plus its payload |
| Wav.ReadFormatBack | AudioTrack.h:18-28 | every format field written reads back as itself |
| Wav.WavBytesLayout | AudioTrack.h:10-35 | a canonical file has its tags where the reader looks, and declares file size and data size correctly |
| Wav.ParseWavBytes | AudioTrack.cpp:91-170 | round trip: a canonical file parses to its format and to data right after the 44-byte header, and is accepted |
| Wav.ZeroChannelFileAcceptedAsWritten | AudioTrack.cpp:103-111 | a well-formed file declaring 0 channels is accepted as written and refused with the format check |
| Wav.AcceptedAsWritten | AudioTrack.cpp:103-120 | an accepted file parses and holds at least the 44 header bytes plus the declared data |
| Wav.Accepted | AudioTrack.cpp:103-111 | the corrected acceptance implies the as-written one and guarantees a non-zero channel count and byte depth to divide by |
| Wav.SubByteDepthFileAcceptedAsWritten | AudioTrack.cpp:103-176 | a well-formed 4-bit file is accepted as written and refused with the format check |
| Wav.SignedLE | AudioTrack.cpp:188-191 | an n-byte two's-complement field lies in [-2^(8n-1), 2^(8n-1)) |
| Wav.Int24At | AudioTrack.cpp:199-205 | the or-and-sign-extend assembly is the 24-bit two's-complement value, in [-2^23, 2^23-1] |
| Wav.DecodePcm8 | AudioTrack.cpp:177-184 | one sample per byte, (b - 128) / 128, in [-1, 1) |
| Wav.DecodePcm16 | AudioTrack.cpp:185-193 | size/2 samples, signed little-endian over 32768, in [-1, 1) |
| Wav.DecodePcm24 | AudioTrack.cpp:194-209 | size/3 samples, sign-extended over 8388608, in [-1, 1) |
| Wav.DecodePcm32 | AudioTrack.cpp:210-228 | size/4 samples, all read as floats when the first is in [-1, 1], otherwise all as int32 over 2^31 |
| Wav.Resized | AudioTrack.cpp:175 | the old prefix survives and new slots are 0 |
| Wav.Converted | AudioTrack.cpp:172-229 | the buffer holds size/(bits/8) samples, decoded per depth; other depths only resize |
| Wav.SignedRoundTrip | AudioTrack.cpp:188-191 | a signed value encoded in n bytes decodes back to itself |
| Wav.EncodePcm | AudioTrack.cpp:172-209 | n bytes per sample |
| Wav.EncodePcmReadBack | AudioTrack.cpp:188-209 | every sample of encoded PCM reads back at offset n*i |
| Wav.Pcm16RoundTrip | AudioTrack.cpp:185-193 | 16-bit encode then convert gives each sample over 32768 |
| Wav.Pcm24RoundTrip | AudioTrack.cpp:194-209 | 24-bit encode then convert gives each sample over 2^23, negatives included |
| Tracks.LastSeparator | AudioTrack.cpp:26 | the index of the last '/' or '\\', or none when there is none |
| Tracks.LastDot | AudioTrack.cpp:27 | the index of the last '.', or none when there is none |
| Tracks.ExtractNameShape | AudioTrack.cpp:25-35 | without a separator or a dot the name is the path; otherwise it holds no separator and is the text between the last separator and the last dot, or the whole tail when the dot comes first |
| Tracks.ExtractName | AudioTrack.cpp:25-35 | the name is never longer than the path, and strictly shorter when the path has both a separator and a dot |
| Tracks.NameOfFile | AudioTrack.cpp:25-35 | `dir/base.ext` names the track `base`, dots in the base included |
| Tracks.NameWhenDotInDirectory | AudioTrack.cpp:28-30 | with the only dots in the directory, the wrapped length makes the name the whole file part |
| Tracks.Envelope | AudioTrack.cpp:62-71 | the fade envelope stays in [0, 1] |
| Tracks.FallbackSample | AudioTrack.cpp:73 | the envelope never raises the tone's magnitude |
| Tracks.FallbackFades | AudioTrack.cpp:62-71 | the fallback starts silent and is at full level between the fades |
| Tracks.DurationSeconds | AudioTrack.cpp:231-238 | 0 for an empty buffer or a zero rate whatever the channel count; otherwise the channel count is positive and the result times the rate is the frame count |
| Tracks.FallbackBuffer | AudioTrack.cpp:51-52 | the fallback buffer holds 2 * 220500 samples |
| Tracks.FallbackBufferShape | AudioTrack.cpp:43-76 | the fallback lasts 5 seconds, both channels carry the same frame, and it starts silent |
| Tracks.SampleAt | AudioTrack.cpp:240-254 | the interleaved element, or 0 for a missing channel or a position past the end |
| Tracks.StoreThenRead | AudioTrack.cpp:240-254 | LoadFromMemory followed by GetSample gives back every stored frame and channel |
| Tracks.FrameAverages | AudioTrack.cpp:290-298 | one channel average per whole frame |
| Tracks.FramesPerPoint | AudioTrack.cpp:280 | each point spans at least one frame |
| Tracks.PeakEnvelope | AudioTrack.cpp:266-307 | empty for an empty buffer or no points, whatever the channel count; otherwise numPoints entries with min <= 0 <= max |
| Tracks.EnvelopePastEndIsFlat | AudioTrack.cpp:282-306 | a point whose span starts past the last frame is (0, 0) |
| Tracks.EnvelopeBoundsSpan | AudioTrack.cpp:282-306 | each point's min and max bound the average of every frame in its span |
| Tracks.AudioTrack.constructor | AudioTrack.cpp:6-15 | 44100 Hz stereo 16-bit, volume 1, pan 0, not muted or soloed, empty |
| Tracks.AudioTrack.GetNumSamples | AudioTrack.h:52 | the whole frames in the buffer: samples over channels, truncated |
| Tracks.AudioTrack.IsEmpty | AudioTrack.h:84 | an empty track has zero duration and reads 0 at every frame and channel |
| Tracks.AudioTrack.GetDurationSeconds | AudioTrack.cpp:231-238 | non-negative, the frames over the rate; callable with 0 channels when the buffer is empty or the rate 0 |
| Tracks.AudioTrack.GetSample | AudioTrack.cpp:240-254 | the sample at frame and channel, 0 when out of range |
| Tracks.AudioTrack.LoadFromFile | AudioTrack.cpp:21-79 | always true, named after the path; an accepted WAV gives its format and decoded data, anything else the 5-second stereo fallback |
| Tracks.AudioTrack.GenerateTestTone | AudioTrack.cpp:43-76 | 44100 Hz stereo 16-bit holding the fallback buffer |
| Tracks.AudioTrack.LoadFromMemory | AudioTrack.cpp:81-89 | stores numSamples * channels samples, rate and channels, marks 32-bit; true |
| Tracks.AudioTrack.LoadWAV | AudioTrack.cpp:91-126 | succeeds exactly for an accepted file, storing its format and decoded data; refuses 0 channels and depths below 8; a failure leaves the buffer |
| Tracks.AudioTrack.ConvertToFloat | AudioTrack.cpp:172-229 | the buffer becomes the conversion of the raw bytes at the given depth |
| Tracks.AudioTrack.Fill8 | AudioTrack.cpp:177-184 | the 8-bit loop writes DecodePcm8 |
| Tracks.AudioTrack.Fill16 | AudioTrack.cpp:185-193 | the 16-bit loop writes DecodePcm16 |
| Tracks.AudioTrack.Fill24 | AudioTrack.cpp:194-209 | the 24-bit loop writes DecodePcm24 |
| Tracks.AudioTrack.Fill32 | AudioTrack.cpp:221-227 | the integer branch writes DecodePcm32 |
| Tracks.AudioTrack.SetVolume | AudioTrack.cpp:256-259 | the volume is the input clamped to [0, 1] |
| Tracks.AudioTrack.SetPan | AudioTrack.cpp:261-264 | the pan is the input clamped to [-1, 1] |
| Tracks.AudioTrack.SetName | AudioTrack.h:61 | stores the name |
| Tracks.AudioTrack.SetMuted | AudioTrack.h:72 | stores the mute flag |
| Tracks.AudioTrack.SetSoloed | AudioTrack.h:75 | stores the solo flag |
| Tracks.AudioTrack.Clear | AudioTrack.cpp:335-339 | the buffer and the path are empty, so IsEmpty holds |
| Tracks.AudioTrack.GetPeakAmplitude | AudioTrack.cpp:309-317 | the loop computes PeakAbs |
| Tracks.AudioTrack.GetMeanSquare | AudioTrack.cpp:319-333 | the loop computes the mean square, 0 for an empty buffer |
| Tracks.AudioTrack.GetPeakAmplitudes | AudioTrack.cpp:266-307 | the nested loops compute PeakEnvelope |
| Tracks.AudioTrack.PointExtremes | AudioTrack.cpp:284-305 | one point's extremes over its span of frame averages |
| Tracks.AudioTrack.FrameSpanExtremes | AudioTrack.cpp:287-302 | running extremes from 0 over a run of frame averages |
| Tracks.AudioTrack.AverageOfFrame | AudioTrack.cpp:293-298 | one frame's channel average through GetSample |
| Waveform.SamplesPerPixel | WaveformVisualizer.cpp:36-42 | at least 1, and otherwise the truncated quotient of size by width times zoom |
| Waveform.PointAt | WaveformVisualizer.cpp:46-63 | point x has x = x and extremes that straddle 0 and bound every sample of its span |
| Waveform.ColumnPastEndIsFlat | WaveformVisualizer.cpp:46-58 | a column past the end is (0, 0) |
| Waveform.RunningExtremes | WaveformVisualizer.cpp:50-58 | the inner loop computes the span's extremes taken with 0 |
| Waveform.WaveformVisualizer.constructor | WaveformVisualizer.cpp:5-8 | zoom 1, stereo display, empty |
| Waveform.WaveformVisualizer.SetAudioData | WaveformVisualizer.cpp:14-18 | keeps a copy of the samples |
| Waveform.WaveformVisualizer.ClearAudioData | WaveformVisualizer.cpp:20-24 | samples and cache both empty |
| Waveform.WaveformVisualizer.GenerateWaveformPoints | WaveformVisualizer.cpp:26-68 | empty for no samples or width 0; otherwise exactly width points, point i summarizing column i; the cache holds the result |
| Waveform.WaveformVisualizer.ColumnPoint | WaveformVisualizer.cpp:46-64 | one column's loop computes PointAt |
| Waveform.WaveformVisualizer.GetPeakAmplitude | WaveformVisualizer.cpp:70-78 | the loop computes PeakAbs, 0 when empty |
| Waveform.WaveformVisualizer.GetMeanSquare | WaveformVisualizer.cpp:114-128 | the loop computes the mean square, 0 when empty |
| Waveform.WaveformVisualizer.SetZoomLevel | WaveformVisualizer.cpp:85-91 | adopts a positive zoom and ignores the rest |
| Waveform.WaveformVisualizer.SetDisplayMode | WaveformVisualizer.cpp:98-101 | stores the display mode |
| PianoRoll.HalfOpenRects | SequencerView.cpp:388-391 | adjacent rectangles never share a point; a rectangle holds its top-left corner but not its bottom-right one; an empty one holds nothing |
| PianoRoll.IsPointInRect | SequencerView.cpp:388-391 | only a rectangle of positive width and height contains a point |
| PianoRoll.ShiftSelected | SequencerView.cpp:309-322 | the drag keeps the note count |
| PianoRoll.DragMovesOnlySelected | SequencerView.cpp:309-322 | unselected notes are unchanged; selected notes keep velocity, duration and flag, and their start moves by the offset unless that goes negative |
| PianoRoll.DragPitchStep | SequencerView.cpp:307-320 | the pitch moves by at most one, down for dy > 0 and up for dy < 0, and stays in [0, 127] |
| PianoRoll.DragsAccumulate | SequencerView.cpp:295-315 | forward drags add up, as moves reapply the offset from the press point |
| PianoRoll.DragCanUnsort | SequencerView.cpp:309-322 | a drag can leave a sorted track unsorted |
| PianoRoll.HitInTrack | SequencerView.cpp:367-382 | the first hit note of a track, or -1 exactly when none is hit |
| PianoRoll.SequencerView.constructor | SequencerView.cpp:7-13 | 64 pixels per beat, 12 per note, no scroll, no drag, indices -1 |
| PianoRoll.SequencerView.HitTestNote | SequencerView.cpp:358-386 | the first hit in track-major, note-minor order, or false with -1/-1 exactly when nothing is hit |
| PianoRoll.SequencerView.OnMouseDown | SequencerView.cpp:255-281 | a miss clears the indices and every selection; a hit enters Move and makes an unselected note the only selected one |
| PianoRoll.SequencerView.OnMouseUp | SequencerView.cpp:283-289 | not dragging, no mode, indices -1 |
| PianoRoll.SequencerView.OnMouseMove | SequencerView.cpp:291-325 | only a Move drag with a live note shifts that track's selected notes; anything else changes nothing |
| PianoRoll.SequencerView.OnMouseWheel | SequencerView.cpp:327-335 | the zoom changes only to a value in [8, 256], so a zoom in range stays in range |
| PianoRoll.SequencerView.OnKeyDown | SequencerView.cpp:337-356 | 'A' selects track 0 if it exists, Delete removes selected notes, 'Q' quantizes them, other keys do nothing |
| PianoRoll.ShiftNotes | SequencerView.cpp:309-322 | the in-place loop computes ShiftSelected |
| PianoRoll.OnlySelected | SequencerView.cpp:273-277 | exactly one note is selected afterwards |
| PianoRoll.OnlySelectedAfterDeselect | SequencerView.cpp:273-277 | deselecting all and then selecting one note leaves that note as the only selection |
| Layout.DivTrunc | ModernUILayout.cpp:49-50 | C++ division by a positive divisor: truncation toward zero for either sign |
| Layout.LayoutPartition | ModernUILayout.cpp:4-38 | header 60, transport 70, status 30 at full width; sidebar 50, tracks 200, upper workspace and inspector 350 side by side; upper workspace 300 tall |
| Layout.ComputeLayout | ModernUILayout.cpp:4-38 | the middle row's four widths add up to the client width, and the header, transport, middle row and status heights add up to the client height |
| Layout.WorkspaceMainInverted | ModernUILayout.cpp:30-32 | the main workspace as written has its bottom 304 rows above its top |
| Layout.ComputeLayoutCorrected | ModernUILayout.cpp:32 | the main workspace reaches the bottom of the side panels; every other region unchanged |
| Layout.CorrectedLayoutIsProper | ModernUILayout.cpp:4-38 | in a window at least 600 by 464, every corrected region has non-negative size and the workspaces stack with a 4-row gap |
| Layout.SlotsFit | ModernUILayout.cpp:49-50 | when the padding fits, slots are non-negative, the last ends padding before the total, and less than one unit per slot is left over |
| Layout.SlotsAreSpaced | ModernUILayout.cpp:53-56 | consecutive slots are exactly padding apart |
| Layout.CalculateGridPosition | ModernUILayout.cpp:40-60 | every cell has the slot size and starts at the slot offset in both directions |
| Layout.GridCellInside | ModernUILayout.cpp:40-60 | with room for the padding, every cell lies inside the container, padding from each edge |
| Layout.AlignHorizontal | ModernUILayout.cpp:62-82 | each rectangle gets the slot's left and width and keeps top and bottom; an empty array is unchanged |
| Layout.AlignVertical | ModernUILayout.cpp:84-104 | each rectangle gets the slot's top and height and keeps left and right; an empty array is unchanged |

## Left out

- Rendering and windowing are not part of this model:
  - the GLFW/ImGui/Win32/OpenGL windows and message pumps (DAWImGuiWindow, DAWWindow, exeDAW.cpp);
  - the widgets and GDI drawing (ModernUI, DAWTheme);
  - every `Render*`/`Draw*` function of the piano roll.
- The piano roll's pixel conversions are not modelled, because they work on float zoom and scroll: `TimeToPixelX`, `PixelXToTime`, `PitchToPixelY` and `PixelYToPitch`. The note rectangle is the input `noteRect`, and the tick offset of a drag is the input `deltaTicks`.
- PianoRoll.SequencerView.OnMouseMove: the tick offset stands for `PixelXToTime(dx) - PixelXToTime(0)`. Its `uint32_t` wrap, and the `(int)` casts of start ticks at or above 2^31, are not modelled.
- PianoRoll.SequencerView.OnKeyDown: 'Q' requires every track to satisfy `QuantizableNotes`. This is the room below 2^32 that the quantize add needs, which the source does not check.
- PianoRoll.SequencerView.OnMouseDown: the hit test goes through `noteRect`. The source's `(int)` casts of the float mouse position are taken as given integer coordinates.
- Sine synthesis in the fallback tone and in the player's loader is floating point. It comes in as the `tone`/`wave` parameter, and the model keeps the envelope, the length, the metadata and the left/right duplication.
- Tracks.Envelope: the envelope is exact rational arithmetic. The fade-out over frames past 216090 reaches 1/4410 at the last frame, not 0, as the source's formula gives.
- Wav.DecodePcm32: reinterpreting four bytes as an IEEE-754 float is the parameter `asFloat`. For a buffer under four bytes the source reads element 0 of an empty vector; the model gives no samples there.
- The RMS square root is not modelled. `GetMeanSquare` returns its square, and `MeanSquareAtMost` bounds it.
- The `float` zoom factor in `SamplesPerPixel` is real division with truncation. Single-precision rounding is not modelled.
- Machine-width overflow is not modelled: ints are unbounded in the layout, the view, `index * numChannels` in `GetSample`, `numSamples * channels` in `LoadFromMemory`, and `x * samplesPerPixel` in the visualizer. QuantizeNote is the exception: it states the `uint32_t` room its add needs as a precondition (`QuantizeFits`).
- Sequencing.SequencerModel.QuantizeTick: requires `QuantizeFits`, the room below 2^32 that the rounding add `beat + grid / 2` needs. For a beat within half a grid of 2^32 the source's `uint32_t` add wraps, and the model does not cover that case.
- Sequencing.SequencerModel.QuantizeSelected: requires `QuantizeFits` for every note of every track (`QuantizableNotes`), for the same reason; a track holding a beat within half a grid of 2^32 is not covered.
- Engine.SequencerEngine.CreateChannel: the id counter is an unbounded `nat`. The source's `uint32_t` counter wraps to 0 after 2^32 creations and then reissues ids, so a new channel can overwrite a map entry and the map and vector disagree. `GetChannelIdCounter` ("above every id in use") and `DeleteThenCreate` ("never reuses an id") hold only below that wrap.
- PianoRoll.SequencerView.OnMouseWheel: the inline setters `SetZoomHorizontal`, `SetZoomVertical`, `SetScrollX` and `SetScrollY` are not modelled. `SetZoomHorizontal` can leave the zoom outside [8, 256], so the wheel handler promises to keep the range only when it starts inside it.
- The file stream is a byte sequence. `seekg` past the end and the stream's failed state are positions and the `streamGood` flag. `printf` logging is left out.
- The transport callback is a flag plus the log of states it was told; the function pointer itself is not modelled.
- The source shares one `AudioPlayer` between channels through `shared_ptr`. Here the sharing is through object references; reference counting and destruction are not modelled.
- Getters that only return a field (`GetTempo`, `GetState`, `GetTracks`, `GetVolume`, …) are read as the field itself.

## Findings

| source | as written | input that shows it | evidently intended | confidence | as-written member | corrected member |
|---|---|---|---|---|---|---|
| AudioTrack.cpp:103-111 | LoadWAV accepts any parsed format and stores `numChannels` unchecked; GetNumSamples and GetPeakAmplitudes then divide by it | a well-formed 46-byte WAV whose format declares 0 channels | refuse a format with no channels | not executed | Wav.ZeroChannelFileAcceptedAsWritten | Tracks.AudioTrack.LoadWAV |
| AudioTrack.cpp:172-176 | ConvertToFloat computes `size / (bitsPerSample / 8)`, which divides by zero for fewer than 8 bits per sample | a well-formed 45-byte WAV declaring 4 bits per sample | refuse depths below 8 bits | not executed | Wav.SubByteDepthFileAcceptedAsWritten | Tracks.AudioTrack.LoadWAV |
| ModernUILayout.cpp:32 | workspaceMain's bottom is `inspectorPanel.top`, the top of the side panels, so the rectangle's bottom lies 304 rows above its top | any client rectangle, e.g. (0, 0, 1280, 800) | bottom at `inspectorPanel.bottom`, the top of the status bar | not executed | Layout.WorkspaceMainInverted | Layout.ComputeLayoutCorrected |
