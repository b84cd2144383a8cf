# liquidsfz core in Dafny

liquidsfz is an SFZ sample player: it loads an SFZ instrument, a text file of `<global>`, `<group>` and `<region>` headers with `opcode=value` lines, and plays the regions' samples when MIDI notes arrive. This project models the integer, index and state-machine core of two revisions of it. The later library lives in `lib/` and the older standalone program in `src/` and `src/liquidsfz.cc`; each file is modelled as its own unit, as written, apart from the corrections listed under "## Left out" and "## Findings".

The modules are:

- `Text`: the `atoi`/`atof` readings the loaders use.
- `SfzRegion`: the `Region` record and its defaults, `convert_key`, `convert_trigger`, `convert_loop_mode` and `starts_with`.
- `Opcodes`: the `set_key_value` opcode table for the three loader revisions.
- `SfzLoader`: header inheritance in `handle_tag` and the post-parse loop-mode resolution.
- `Preprocess`: line splitting, `//` comment stripping and `#include` handling.
- `RoundRobin`: region selection and the `play_seq` counter.
- `SampleWindow`, `VoicePlayback`, `LibVoice` and `SrcVoice`: the sample reader, the per-frame read index and loop wrap, and voice start/process for both revisions.
- `VoicePool`, `SynthSpec`, `LibSynth` and `SrcSynth`: the voice pool, the note state machine (IDLE / ACTIVE / SUSTAIN / RELEASED), CC handling, the event queue and the block renderer.
- `Smoothing`: `LinearSmooth` and `db_from_factor`.
- `LfoGenerator`: the LFO counters, wave shapes, chunking and output slices.
- `SampleCache`: buffer indexing, prefetching and lookup.
- `SfPool`: the sound-file pool's virtual I/O and eviction.
- `Hydrogen`: the Hydrogen drum-kit velocity-range repair and key numbering.
- `ArgParsing`: the argv option parser.
- `CliParsing`: the command-line tokenizer and its `command` overloads.

Code that changes state in place is modelled as classes whose methods are proved against specification functions. Pure code is modelled as functions and lemmas. Floating-point positions and gains are `real`, and no claim is bit-exact.

## Model

| member | source | states |
|---|---|---|
| Text.SkipSpacesDropsOnlySpaces | lib/loader.hh:227 | atoi's skip of leading white space removes white space only, up to the first other character |
| Text.FractionValueBounds | lib/loader.hh:242 | the fraction digits atof reads after the point add a value in [0, 1) |
| Text.AtoiOfDigits | lib/loader.hh:232 | atoi reads back the decimal spelling of every natural number |
| Text.AtoiOfNegative | lib/loader.hh:232 | a minus sign before a decimal number makes atoi return its negation |
| Text.AtoiOfDigitString | lib/loader.hh:232 | on any non-empty string of digits atoi returns its decimal value |
| Text.AtoiOfNegativeDigitString | lib/loader.hh:232 | a minus sign before a digit string negates the value atoi returns |
| Text.AtofOfDigitString | lib/loader.hh:242 | on a digit string atof returns the same value as its decimal reading |
| Text.AtofOfDigits | lib/loader.hh:242 | atof and atoi agree on decimal integers |
| Text.AtofOfDecimal | lib/loader.hh:242 | atof reads a spelling w.f (w non-empty digits, f digits) as w plus the fraction f denotes |
| Text.AtofOfMantissa | lib/loader.hh:242 | after a digit string that ends in neither a digit nor a point, the value atof returns is the digits' value scaled by the exponent that follows |
| Text.ExponentOf | lib/loader.hh:242 | an exponent part e followed by the spelling of n denotes the exponent n |
| Text.NegativeExponentOf | lib/loader.hh:242 | an exponent part e- followed by the spelling of n denotes the exponent -n |
| Text.AtofOfExponent | lib/loader.hh:242 | atof reads w e n as w times ten to the n |
| Text.AtofOfNegativeExponent | lib/loader.hh:242 | atof reads w e-n as w divided by ten n times |
| Text.AtofOfOneEOne | src/cliparser.cc:117 | atof of "1e1" is ten |
| SfzRegion.DefaultRegionMatchesEverything | lib/loader.hh:66-101 | a region with the default opcode values is well formed, accepts every MIDI key and velocity, and no controller value excludes it |
| SfzRegion.NoteOffset | lib/loader.hh:201-210 | the note letters c d e f g a b (either case) have offsets 0 2 4 5 7 9 11 and no other character has one |
| SfzRegion.ConvertKeyOfNoteName | lib/loader.hh:194-224 | a note letter followed by octave n is MIDI note 12 n + offset + 12 |
| SfzRegion.ConvertKeyAccidentals | lib/loader.hh:211-224 | a '#' after the letter raises the note by one semitone and a 'b' lowers it by one |
| SfzRegion.ConvertKeyMiddleC | lib/loader.hh:223-224 | "c4" is note 60 |
| SfzRegion.ConvertKeyOctaveFour | lib/loader.hh:194-224 | in octave 4 every letter, in either case and with or without an accidental, is 60 plus its offset |
| SfzRegion.NoteOffsetTable | lib/loader.hh:201-210 | the letter table in full, upper case reading like lower case |
| SfzRegion.ConvertKeyOfNegativeOctave | lib/loader.hh:224 | a negative octave number is read with its sign |
| SfzRegion.ConvertKeyLowestOctave | lib/loader.hh:224 | "c-1" is note 0 |
| SfzRegion.ConvertKeyFallsBackToAtoi | lib/loader.hh:194-227 | a string shorter than two characters, or not starting with a note letter, is read with atoi |
| SfzRegion.ConvertKeyOfNumber | lib/loader.hh:227 | a plain MIDI note number passes through unchanged |
| SfzRegion.ConvertTrigger | lib/loader.hh:245-250 | the trigger is release exactly when the value is "release", attack otherwise |
| SfzRegion.StartsWith | lib/loader.hh:254-257 | the result holds exactly when start is a prefix of key |
| SfzRegion.ConvertLoopMode | lib/loader.cc:47-58 | each of the four loop-mode names selects its own mode and every other value gives DEFAULT |
| SfzRegion.ResolveLoopMode | lib/loader.cc:367-384 | after loading, no region keeps DEFAULT: it becomes CONTINUOUS with the sample's loop points when the sample loops and NONE otherwise; an explicit mode is kept; the cache entry is attached |
| Opcodes.NativeFilename | lib/loader.cc:79-86 | the sample file name keeps its length and every character except '\', each '\' becomes PATH_SEPARATOR ('/', lib/utils.hh:89), and no '\' is left |
| Opcodes.OpcodeByName | lib/loader.cc:79-153 | lookup by exact name never yields one of the prefix opcodes (locc, hicc, on_locc/on_hicc) |
| Opcodes.Classify | lib/loader.cc:79-155 | a locc/hicc classification implies the name has that prefix; every classified opcode is one the revision's if-chain contains |
| Opcodes.SetCcBound | lib/loader.cc:116-127 | storing a locc/hicc bound keeps one entry per controller |
| Opcodes.Apply | lib/loader.cc:79-155 | an unsupported opcode leaves the region as it was (only a warning); no opcode touches the playback state or the cache entry; the region stays well formed |
| Opcodes.ApplyOpcode | lib/loader.cc:62-156 | set_key_value on the active region: unknown opcodes change nothing; the region stays well formed |
| Opcodes.KeyOpcodeSetsRangeAndCenter | lib/loader.cc:91-97 | "key" writes the same note to lokey, hikey and pitch_keycenter and nothing else, in every revision |
| Opcodes.LoccOpcodeStoresOneEntry | lib/loader.cc:116-121 | locc<N>=v stores atoi(v) in entry N for 0 <= N <= 127 and changes nothing else; any other N leaves the region unchanged |
| Opcodes.HiccOpcodeStoresOneEntry | lib/loader.cc:122-127 | the same for hicc<N> and the upper bounds |
| Opcodes.NameRoundTrip | lib/loader.cc:79-153 | every opcode with an exact name is found under that name |
| Opcodes.OpcodeByNameIsExact | lib/loader.cc:79-153 | a name the table knows is exactly the name of the opcode it yields |
| Opcodes.NamesAvoidCcPrefixes | lib/loader.cc:116-129 | no exact opcode name starts with a CC prefix, so testing the prefixes first picks the same branch as the source's order |
| Opcodes.NameAvoidsCcPrefixes | lib/loader.cc:116-129 | the same, stated for each opcode's name |
| Opcodes.ProtoIgnoresLaterOpcodes | src/liquidsfz.cc:123-174 | the prototype loader leaves the region unchanged for loop_mode, locc/hicc, the envelope, volume, veltrack and pan opcodes |
| Opcodes.LibOnlyOpcodes | src/loader.cc:46-126 | pitch_keytrack and rt_decay change a region only in lib/loader.cc; the src revision ignores them |
| Opcodes.OnCcOpcodeSetsCcTrigger | lib/loader.cc:128-129 | on_locc<N> / on_hicc<N> make the region CC-triggered whatever the value |
| SfzLoader.CacheLookup | lib/loader.cc:367-371 | a region gets a cache entry exactly when its sample could be loaded, and then the entry of that sample |
| SfzLoader.LibLoader.constructor | lib/loader.hh:181-187 | no header yet, no regions, and all three levels hold the default region |
| SfzLoader.LibLoader.SetKeyValue | lib/loader.cc:62-77 | the opcode changes the global, group or region level the parser is inside, and nothing before the first header |
| SfzLoader.LibLoader.HandleTag | lib/loader.cc:158-194 | region, group and global first store a region that has a sample; region inherits from the group (from the global directly under global), group from the global, global resets to the defaults; other tags change nothing |
| SfzLoader.LibLoader.Finish | lib/loader.cc:361-384 | the last region is stored when it has a sample, then every stored region gets its cache entry and a resolved loop mode; no region keeps DEFAULT |
| SfzLoader.GroupLoader.constructor | src/loader.hh:107-110 | no header yet, no regions, group and region at the defaults |
| SfzLoader.GroupLoader.SetKeyValue | src/loader.cc:46-51 | before the first header the opcode is dropped; inside a region it changes the region, else the group |
| SfzLoader.GroupLoader.HandleTag | src/loader.hh:189-215 | region and group store a region with a sample; region inherits from the group, group resets to the defaults; other tags change nothing |
| SfzLoader.GroupLoader.Finish | src/loader.cc:288-312 | the last region is stored, every region gets its cache entry; the src revision also resolves DEFAULT loop modes, the prototype's finish (src/liquidsfz.cc:207-219) does not |
| Preprocess.SplitPrefixInvariant | lib/loader.cc:258-276 | after any prefix of the file, the finished lines each followed by '\n', plus the line being read, are the prefix without '\r'; no line holds a line break; there is one finished line per '\n' |
| Preprocess.SplitLinesRoundTrip | lib/loader.cc:258-283 | writing the lines back with a '\n' after each gives the file without '\r' (plus a final '\n' when it lacked one); no line holds a line break; one line per '\n' plus a final non-empty unterminated one |
| Preprocess.SplitPrefixGrows | lib/loader.cc:258-276 | reading further only appends finished lines |
| Preprocess.StripCommentCutsAtFirstComment | lib/loader.cc:199-201 | stripping keeps a prefix of the line without "//" and cuts only where the first "//" starts |
| Preprocess.StripCommentWithoutComment | lib/loader.cc:199-201 | a line without "//" is left unchanged |
| Preprocess.TrimTrailingSpaces | lib/loader.cc:204 | the trailing `\s*` of the include pattern: a prefix of the line that does not end in white space |
| Preprocess.QuotedName | lib/loader.cc:204 | the captured name is a proper prefix of the text after the opening quote |
| Preprocess.IncludeOfQuotedName | lib/loader.cc:203-208 | `#include "name"` names exactly the file between the quotes, whatever characters it holds |
| Preprocess.DirectiveNeedsHash | lib/loader.cc:204-206 | a line whose first character other than white space is not '#' is not an include directive |
| Preprocess.AllPlainElement | lib/loader.cc:204-225 | in a file without directives every stripped line is emitted as a plain line |
| Preprocess.AllPlainPrefix | lib/loader.cc:258-276 | every prefix of a file without directives is without directives |
| Preprocess.NumberedLines | lib/loader.cc:255-276 | line k of a file (from 0) is emitted with number k + 1, its file name and its comment stripped |
| Preprocess.NumberedSnoc | lib/loader.cc:268-274 | one more line read appends one more numbered line |
| Preprocess.LineStep | lib/loader.cc:196-228 | a stripped line that is not a directive is emitted as is; a directive of a file already read is skipped; of a file that cannot be opened fails; otherwise the file is expanded |
| Preprocess.CardinalityMonotone | lib/loader.cc:210 | the set of files read only grows, which bounds the include recursion |
| Preprocess.Numbered | lib/loader.cc:255-276 | one emitted line per line of the file |
| Preprocess.LineOutcome | lib/loader.cc:196-228 | preprocessing a line, including the recursive expansion of an include, only adds to the files read |
| Preprocess.FileOutcome | lib/loader.cc:244-284 | preprocessing a file only adds to the files read |
| Preprocess.LinesOutcome | lib/loader.cc:258-283 | preprocessing the rest of a file's lines only adds to the files read |
| Preprocess.PlainLinesOutcome | lib/loader.cc:258-283 | lines without directives succeed, read no file and emit exactly their numbered, stripped forms |
| Preprocess.FileWithoutIncludes | lib/loader.cc:244-284 | a file without directives succeeds, is added to the files read, and emits its numbered, stripped lines |
| Preprocess.IncludeExpandsInPlace | lib/loader.cc:203-216 | an #include of a file not yet read that has no directives of its own succeeds and appends exactly that file's numbered, stripped lines in place of the directive |
| Preprocess.ResumedStep | lib/loader.cc:268-272 | one round of the line loop, preprocessing line k and going on from k + 1 unless it failed, leaves the loop's outcome unchanged |
| Preprocess.ReadLines | lib/loader.cc:258-283 | the character loop yields exactly SplitLines of the contents |
| Preprocess.Preprocessor.constructor | lib/loader.hh:190 | no file read yet and no lines |
| Preprocess.Preprocessor.PreprocessLine | lib/loader.cc:196-228 | appends exactly what the line's outcome says: the stripped plain line; nothing, with success, for an include of a file already read; nothing, with failure, for one it cannot open; otherwise the whole expansion of the included file, with its success and its read files; read files and lines only grow |
| Preprocess.Preprocessor.PreprocessFile | lib/loader.cc:244-284 | appends exactly the file's outcome: a file that cannot be opened fails with nothing changed; otherwise it is marked read first and its lines are preprocessed in order, includes expanded in place; a file without directives appends its numbered, stripped lines and succeeds |
| Preprocess.Preprocessor.PreprocessLines | lib/loader.cc:258-283 | the line loop appends exactly the outcome of the lines in order, stopping at the first that fails; lines without directives are appended numbered from the first |
| RoundRobin.NextPlaySeq | src/liquidsfz.cc:285-287 | from a non-negative counter the next one lies in 1..max(1, seq_length) |
| RoundRobin.PlaySeqCountsUp | src/liquidsfz.cc:285-287 | below seq_length the counter counts up by one per matching note |
| RoundRobin.PlaySeqCycles | src/liquidsfz.cc:285-287 | from 1 the counter takes 1, 2, ..., seq_length and is back at 1 after seq_length notes |
| RoundRobin.Advanced | src/liquidsfz.cc:285-287 | advancing changes only play_seq, and keeps it within 1..max(1, seq_length) |
| RoundRobin.ProtoNoteOn | src/liquidsfz.cc:234-291 | every key-, velocity- and attack-matching region advances its counter and no other changes; the regions played are exactly the matching ones that were due, whose random number lies in [lorand, hirand) and that have a sample, in region order |
| SampleWindow.ToUint | lib/voice.cc:103 | the unsigned conversion of the loop end stays below 2^32 and leaves every value already in range unchanged |
| SampleWindow.MonoWindow | lib/voice.cc:89-107 | the mono window has exactly as many values as the array it fills |
| SampleWindow.StereoPos | lib/voice.cc:109-129 | the stereo read index stays even, so every frame starts at a left-channel value |
| SampleWindow.StereoWindow | lib/voice.cc:109-129 | the stereo window holds two values per frame |
| SampleWindow.EvenWrap | lib/voice.cc:125 | doubling a loop end and wrapping it to 32 bits gives an even index |
| SampleWindow.GetSamplesMono | lib/voice.cc:89-107 | the loop fills the whole array with the mono window from index x: sample values while in range, wrapping to the loop start past the loop end in a looping mode, silence past the end |
| SampleWindow.GetSamplesStereo | lib/voice.cc:109-129 | the loop fills the array two values at a time with the interleaved stereo window from index x |
| SampleWindow.StereoWindowOfFrames | lib/voice.cc:111-127 | values written left then right for each frame form the stereo window |
| SampleWindow.NextMonoStaysInLoop | lib/voice.cc:100-104 | in a looping mode one step of the mono index never passes a loop end that lies before it |
| SampleWindow.LoopedMonoPosStaysInLoop | lib/voice.cc:91-106 | inside a loop that lies within the sample, the mono read index never passes the loop end however many values are read |
| SampleWindow.LoopedMonoWindowHasNoSilence | lib/voice.cc:91-106 | inside such a loop every value of the mono window is a sample at or before the loop end: the reader wraps instead of running into silence |
| SampleWindow.PosPastEndStays | lib/voice.cc:93-96 | once the read index is past the end of the sample it no longer moves, mono or stereo |
| SampleWindow.WindowPastEndIsSilent | lib/voice.cc:113-117 | from an index past the end of the sample both windows are all silence |
| VoicePlayback.PlaybackOf | lib/voice.cc:85-87 | a voice's playback reads its region's loop mode and loop points, the cached sample and the replay speed |
| VoicePlayback.Wrapped | lib/voice.cc:170-172 | the wrap leaves the position at most the loop end, past the loop start when it moved it, and unchanged when it was not past the loop end |
| VoicePlayback.Advance | lib/voice.cc:167-173 | one frame step keeps the position non-negative, keeps it at most the loop end in a wrapping loop, and otherwise adds the replay speed |
| VoicePlayback.PposAt | lib/voice.cc:132-174 | the position after any number of frames stays non-negative |
| VoicePlayback.ReadIndex | lib/voice.cc:134-136 | the read index is the integer part of the position, so the fraction lies in [0, 1) |
| VoicePlayback.ReadOffset | lib/voice.cc:134-135 | the read offset is the read index times the channel count taken as an unsigned 32-bit value: below 2^32, equal to the product when that fits, and even for stereo so that a window starts on a frame |
| VoicePlayback.Lerp | lib/voice.cc:145 | the interpolation gives the first sample at fraction 0, the second at fraction 1, and the common value of two equal samples |
| VoicePlayback.MixFrame | lib/voice.cc:134-161 | one played frame adds exactly the window read at the wrapped 32-bit offset, interpolated and times the channel gains, to the left and right outputs at its index and changes no other output value |
| VoicePlayback.WrapPosition | lib/voice.cc:170-172 | the wrap loop computes the wrapped position |
| VoicePlayback.StepPosition | lib/voice.cc:167-173 | the end of a frame computes the advanced position |
| VoicePlayback.PositionStaysInLoop | lib/voice.cc:168-173 | in a wrapping loop the position after every frame is at most the loop end |
| VoicePlayback.PositionWithoutLoop | lib/voice.cc:167 | outside a wrapping loop the position after k frames is the start position plus k times the replay speed |
| LibVoice.CurveBounds | lib/voice.cc:39 | a MIDI velocity gives a velocity curve in [0, 1] |
| LibVoice.VelocityTrackBounds | lib/voice.cc:36-46 | full velocity gives gain 1 for a non-negative amp_veltrack, and for amp_veltrack in [0, 100] every MIDI velocity gives a gain between 1 - amp_veltrack/100 and 1 |
| LibVoice.ScaledBelow | lib/voice.cc:43 | scaling by a curve value in [0, 1] keeps a non-negative amount between 0 and itself |
| LibVoice.RtDecayGain | lib/voice.cc:69-74 | the release damping is exactly 1 unless the region is a release region, and then the dB factor of minus the time since note-on times rt_decay |
| LibVoice.Start | lib/voice.cc:56-80 | a started voice is ACTIVE at position 0 with the given channel, key, velocity, region, trigger, frame count and sample rate; for every trigger its left and right gains are the velocity factor times the volume factor times the release damping times the pan factor of channel 0 and 1 respectively, and without a release trigger the damping drops out |
| LibVoice.Process | lib/voice.cc:82-175 | process plays frames while they lie in the sample and the envelope lasts, mixing each into both outputs; at the first other frame it turns IDLE and stops; the position advances once per played frame and no output past the played frames changes |
| LibVoice.SampleReader.constructor | lib/voice.hh:31-43 | a new reader has a 24-value window, cursor and end 0, the loop disabled and no sample |
| LibVoice.SampleReader.Restart | lib/voice.hh:44-56 | restart rewinds the cursor, disables the loop, clears the window, takes the sample's channel count and puts the end 32 frames past the sample scaled by the upsampling factor, so a restarted reader is not done |
| LibVoice.SampleReader.SetLoop | lib/voice.hh:57-62 | set_loop stores both loop points and changes nothing else |
| SrcVoice.Consumed | src/voice.cc:87-89 | a block never takes more envelope values than it has frames or the envelope has values |
| SrcVoice.FrameDoneAtIndex | src/voice.cc:87-115 | a frame mixed or kept at its own index is the frame the call's contract describes |
| SrcVoice.Process | src/voice.cc:33-124 | the older process runs all nframes frames: each frame still inside the sample with envelope left mixes its window with the next envelope value, every other frame leaves the outputs alone, used stays set only while every frame was played, and the position advances for the whole block |
| SrcVoice.PlayFrame | src/voice.cc:84-122 | one frame is played exactly when it lies in the sample and the envelope lasts, and it then takes one envelope value and mixes it; otherwise it leaves the outputs alone |
| SrcVoice.PlayingFramesConsumeInOrder | src/voice.cc:87-89 | while every frame has been played, frame k takes envelope value k, the same values the later revision mixes |
| SrcVoice.SilentFrameClearsUsed | src/voice.cc:112-115 | once one frame of a block is not played, the voice ends the block unused |
| SrcVoice.AllPlayingPrefix | src/voice.cc:82-115 | a block played throughout was played throughout in each of its first frames |
| VoicePool.FirstIdle | lib/synth.hh:78-88 | the voice alloc_voice hands out is in the pool and IDLE |
| VoicePool.FirstIdleIsFirst | lib/synth.hh:78-88 | alloc_voice returns the first IDLE voice, every voice before it being busy, and returns none exactly when every voice is busy |
| VoicePool.ActiveCount | lib/synth.hh:89-98 | active_voice_count never exceeds the number of voices |
| VoicePool.PoolFullIffNoIdle | lib/synth.hh:78-98 | every voice counts as active exactly when alloc_voice finds no voice |
| VoicePool.ActiveCountUpdate | lib/synth.hh:89-98 | replacing one voice changes the active count by what the old and new voice contribute |
| VoicePool.LaunchSnoc | lib/synth.hh:145-147 | starting one more region is one more alloc_voice followed by start on the pool left by the earlier regions |
| VoicePool.LaunchTakesOnlyIdle | lib/synth.hh:145-147 | starting voices for regions takes only IDLE voices: every voice is either unchanged or was IDLE and now plays one of the regions with the given arguments |
| VoicePool.LaunchCount | lib/synth.hh:145-147 | each region takes one IDLE voice until the pool is full and the rest are dropped: the active count grows by the number of regions, capped at the pool size |
| VoicePool.TimeSinceNoteOn | lib/synth.hh:201 | the time since note-on is never negative, and it is the frame difference divided by the sample rate when the difference does not wrap |
| VoicePool.ReleaseRegionsSelect | lib/synth.hh:195-200 | a region is among those release starts voices for exactly when it matches key, velocity and the release trigger and has a loaded sample |
| VoicePool.ReleaseRegionsAsWritten | lib/synth.hh:195-207 | the release loop as written never selects more regions than the loader has |
| VoicePool.ReleaseAsWrittenStartsSamplelessVoice | lib/synth.hh:195-207 | as written, a release-trigger region whose sample did not load is selected for a voice |
| VoicePool.ReleaseAtEffect | lib/synth.hh:180-208 | release leaves a voice that is neither ACTIVE nor SUSTAIN and the whole pool alone; otherwise the voice becomes RELEASED and every other voice either stays as it was or was IDLE and is a spawned release voice |
| VoicePool.SweepStepEffect | lib/synth.hh:163-178 | one iteration of a sweep puts a hit voice into the sweep's target state, leaves a voice it does not hit alone, and changes other voices only by spawning release voices into IDLE slots |
| VoicePool.SweepEffect | lib/synth.hh:103-111 | after a sweep every visited voice it hits is in the target state, other busy voices are unchanged, and IDLE voices stay IDLE or become spawned release voices |
| VoicePool.SweepKeepsPoolValid | lib/synth.hh:230-234 | a sweep keeps every busy voice on a loaded sample and started no later than the frame count |
| VoicePool.LaunchKeepsPoolValid | lib/synth.hh:143-147 | starting voices for regions with loaded samples keeps the pool valid |
| VoicePool.PlayedRegionsSelect | lib/synth.hh:117-150 | a region is among those note_on starts voices for exactly when it matches key, velocity, trigger and CC ranges, is at its round-robin turn, covers the random number and has a loaded sample |
| VoicePool.PlayedRegionsStep | lib/synth.hh:117-150 | visiting one more region extends the played regions by that region exactly when it plays |
| SynthSpec.StateValidLater | lib/synth.hh:316-323 | the state stays valid when the frame counter moves on |
| SynthSpec.IndexAsWrittenAdmitsSize | lib/synth.hh:213 | the channel and controller checks as written admit the index equal to the size, which the vector does not hold |
| SynthSpec.IndexChecksDifferOnlyAtSize | lib/synth.hh:241-250 | the corrected check admits only indices in bounds and agrees with the written one on every index but the size |
| SynthSpec.CcOfIsByte | lib/synth.hh:238-253 | every value get_cc returns is a byte |
| SynthSpec.CcValues | lib/synth.hh:124-133 | the CC values read for a channel are one per controller, 128 in all |
| SynthSpec.AdvanceSelected | lib/synth.hh:136-154 | advancing the round-robin counters keeps one region per region |
| SynthSpec.CcStateStores | lib/synth.hh:210-225 | a valid controller update stores exactly the value as a byte at that channel and controller and leaves every other CC value as it was |
| SynthSpec.NoteOnKeepsValid | lib/synth.hh:99-157 | note_on keeps the synth state valid |
| SynthSpec.NoteOffKeepsValid | lib/synth.hh:158-179 | note_off keeps the synth state valid |
| SynthSpec.CcKeepsValid | lib/synth.hh:210-237 | update_cc keeps the synth state valid |
| SynthSpec.NoteOffLeavesNoActiveVoice | lib/synth.hh:158-179 | after note_off no ACTIVE attack voice of that channel and key is left unless its region is one-shot: with the pedal down they sustain, otherwise they are released |
| SynthSpec.PedalUpLeavesNoSustain | lib/synth.hh:226-235 | lifting the sustain pedal leaves no SUSTAIN voice |
| SynthSpec.NoteOnReleasesOverlapping | lib/synth.hh:103-111 | after note_on no voice that was ACTIVE or SUSTAIN on that channel and key with an attack trigger, and a region that is not one-shot, is still ACTIVE or SUSTAIN |
| SynthSpec.NoteOnStartsOnlyPlayingRegions | lib/synth.hh:117-150 | every voice note_on changes beyond the release sweep was IDLE and now plays a region that passed every check |
| LibSynth.ToUint16 | lib/synth.hh:266-275 | an argument stored in a 16-bit event field stays below 2^16 and is kept unchanged when it already fits |
| LibSynth.EmitsIsMonotone | lib/synth.cc:150-200 | a message emitted at one severity is emitted at every higher severity, ERROR always passes, DEBUG lets everything through, and the threshold is the only level at its rank |
| LibSynth.TilesLength | lib/synth.cc:36-52 | consecutive spans that tile a range cover exactly its length |
| LibSynth.TilesSnoc | lib/synth.cc:51 | a span that starts where a tiling ends extends the tiling |
| LibSynth.TilesAppend | lib/synth.cc:63-89 | two tilings that meet form one tiling of the joint range |
| LibSynth.Zeroed | lib/synth.cc:59-60 | zeroing the first n frames sets exactly those frames to 0 and keeps the length |
| LibSynth.ChunkVoice | lib/voice.cc:83-175 | a chunk keeps an IDLE voice as it is, can only leave a busy voice in its state or IDLE, changes nothing but state and position, and keeps a busy voice playable |
| LibSynth.ChunkVoices | lib/synth.cc:46-50 | a chunk keeps the number of voices in the pool |
| LibSynth.SliceRun | lib/synth.cc:36-52 | a process_audio call keeps the number of voices in the pool |
| LibSynth.SliceFirst | lib/synth.cc:36-51 | a call of m > 0 frames renders a first chunk of min(m, maximum block size) frames with the pool it starts with, then goes on with the pool that chunk leaves |
| LibSynth.SliceChunked | lib/synth.cc:36-52 | the chunks of a process_audio call tile its range, none longer than the maximum block size, each at its absolute frame |
| LibSynth.ChunkedCons | lib/synth.cc:36-51 | a first chunk of at most the maximum block size before a tiling run of chunks makes one tiling run |
| LibSynth.SliceKeepsPool | lib/synth.cc:36-52 | rendering keeps the pool valid: no start frame changes and every busy voice stays playable |
| LibSynth.TilesWithin | lib/synth.cc:36-52 | every span of a tiling lies within the tiled range |
| LibSynth.ChunkMixedThrough | lib/synth.cc:36-52 | a chunk's output survives later changes that leave its frames alone |
| LibSynth.MixedAppend | lib/synth.cc:63-89 | two runs of chunks over adjacent ranges, each changing only its own range, together add each chunk's output to its frames |
| LibSynth.IdleMixIsSilent | lib/synth.cc:46-50 | a pool in which every voice is IDLE adds nothing to any frame |
| LibSynth.ChunksAppend | lib/synth.cc:36-52 | two runs of chunks whose absolute frames agree make one run |
| LibSynth.RenderTo | lib/synth.cc:66-70 | rendering up to an offset reaches exactly that offset and changes nothing in the state but the voices, whose number it keeps |
| LibSynth.ReachedStep | lib/synth.cc:66-70 | after one process_audio call from the offset reached, the synth, its histories and its outputs are those of the progression rendered up to the new offset |
| LibSynth.HandledReached | lib/synth.cc:73-84 | dispatching an event at the offset reached gives the state of the progression with that event applied |
| LibSynth.ChunkingStart | lib/synth.cc:35-36 | before the first chunk nothing is rendered and the whole call is still to come |
| LibSynth.ChunkingStep | lib/synth.cc:38-51 | one rendered chunk moves the chunk loop on by min(frames left, maximum block size) with the pool that chunk leaves |
| LibSynth.ChunkingDone | lib/synth.cc:52 | when no frames are left, the pool, the chunk histories and the outputs are those of the whole call |
| LibSynth.RenderToSound | lib/synth.cc:66-70 | rendering up to an offset keeps the chunks tiling the frames rendered so far, each within the maximum block size |
| LibSynth.SoundAppend | lib/synth.cc:66-70 | chunks that tile the newly rendered frames, appended to a sound history, keep it tiling from frame 0 within the block size |
| LibSynth.SortedPrefix | lib/synth.cc:63 | a prefix of a queue whose offsets do not decrease has offsets that do not decrease |
| LibSynth.Played | lib/synth.cc:63-85 | after the event loop the block has been rendered up to the last event's clamped offset, or not at all when the queue is empty |
| LibSynth.PlayedControllers | lib/synth.cc:63-85 | rendering between events leaves regions and channels as applying the events alone does |
| LibSynth.PlayedSound | lib/synth.cc:63-85 | the chunks rendered during the event loop tile the frames up to the offset reached |
| LibSynth.PlayedNext | lib/synth.cc:63-84 | the progression after i + 1 events is the one after i events, rendered up to event i's clamped offset, with event i applied |
| LibSynth.Block | lib/synth.cc:56-90 | a whole process call renders exactly up to the end of the block |
| LibSynth.BlockControllers | lib/synth.cc:56-90 | rendering the block leaves regions and channels as applying the queued events alone does |
| LibSynth.BlockSound | lib/synth.cc:56-90 | the chunks of a whole block tile it, none longer than the maximum block size |
| LibSynth.EventControllers | lib/synth.cc:73-84 | how an event changes regions and channels does not depend on the voices or the frame count |
| LibSynth.SlicedByNext | lib/synth.cc:66-70 | the slice of round i runs from the offset reached to event i's clamped offset and extends the tiling |
| LibSynth.SlicedByLast | lib/synth.cc:88-89 | the slice after the last event completes the tiling of the block, and each earlier slice ends at its event's clamped offset |
| LibSynth.BusyIndices | lib/synth.cc:46-50 | the voices asked to render are at most all voices and are indices into the pool |
| LibSynth.BusyIndicesSelect | lib/synth.cc:46-50 | exactly the voices that are not IDLE are asked to render, each once and in pool order |
| LibSynth.Clamp | lib/synth.cc:66 | the clamped event offset never exceeds the block or the event's own offset, and equals the offset when the offset lies within the block |
| LibSynth.EventKeepsValid | lib/synth.cc:73-84 | dispatching any event keeps the synth state valid |
| LibSynth.Synth.constructor | lib/synth.hh:52-57 | a new synth has 256 IDLE voices, 16 channels with every CC at 0, the loader's regions, and empty queues and histories |
| LibSynth.Synth.AllocVoice | lib/synth.hh:78-88 | the loop returns the first IDLE voice, or none |
| LibSynth.Synth.ActiveVoiceCount | lib/synth.hh:89-98 | the loop counts exactly the voices that are not IDLE |
| LibSynth.Synth.GetCc | lib/synth.hh:238-253 | get_cc returns a byte, and 0 for a channel outside the pool |
| LibSynth.Synth.CcMatches | lib/synth.hh:122-135 | the CC loop of note_on accepts the region exactly when every constrained controller lies within its range |
| LibSynth.Synth.ReleaseVoice | lib/synth.hh:180-208 | release updates the pool exactly as the release function of the pool does |
| LibSynth.Synth.Spawn | lib/synth.hh:145-147 | alloc_voice followed by start gives the region the first IDLE voice, or drops it |
| LibSynth.Synth.SweepPool | lib/synth.hh:103-111 | a loop over the pool leaves it as the sweep function does |
| LibSynth.Synth.NoteOn | lib/synth.hh:99-157 | note_on leaves voices and regions as the note-on function of the synth state does, and keeps the synth valid |
| LibSynth.Synth.PlayRegions | lib/synth.hh:117-155 | the region loop starts voices for exactly the regions that play, in order, and advances the round-robin counter of every selected region |
| LibSynth.Synth.VisitRegion | lib/synth.hh:119-154 | a region starts a voice exactly when it plays, and comes back advanced exactly when it is selected |
| LibSynth.Synth.NoteOff | lib/synth.hh:158-179 | note_off leaves the voices as the note-off function does, and keeps the synth valid |
| LibSynth.Synth.UpdateCc | lib/synth.hh:210-237 | update_cc, with the corrected bounds checks, leaves the state as the controller function does, and keeps the synth valid |
| LibSynth.Synth.AddEventNoteOn | lib/synth.hh:265-275 | exactly one NOTE_ON event with the offset and the 16-bit channel, key and velocity is appended to the queue |
| LibSynth.Synth.AddEventNoteOff | lib/synth.hh:276-286 | exactly one NOTE_OFF event with arg2 0 is appended to the queue |
| LibSynth.Synth.AddEventCc | lib/synth.hh:287-297 | exactly one CC event with the 16-bit channel, controller and value is appended to the queue |
| LibSynth.Synth.ProcessAudio | lib/synth.cc:33-54 | process_audio renders the range in chunks of at most the maximum block size; each frame gains the output of the chunk covering it, summed over the voices that were busy at that chunk's start, and nothing outside the range changes; the pool ends as the chunks leave it and the frame count grows by the range's length |
| LibSynth.Synth.RenderChunks | lib/synth.cc:36-52 | the chunk loop renders exactly the chunks of the slice run, in order, each chunk by the pool the previous one left, and changes no frame outside the range |
| LibSynth.Synth.DispatchEvent | lib/synth.cc:73-84 | one event changes the state as the event function does and is recorded as dispatched once |
| LibSynth.Synth.Process | lib/synth.cc:56-90 | process zeroes both outputs, renders the block in slices cut at the clamped event offsets and dispatches each queued event once, in queue order, between them; each frame holds the output of the chunk covering it, rendered by the pool as the earlier slices and events left it; the state after is the block's state, the queue is empty and the frame count grows by the block length |
| LibSynth.Synth.DispatchAll | lib/synth.cc:63-85 | the event loop renders up to each event's clamped offset before dispatching it, for every event in order, and ends at the state, chunks and outputs of the played progression |
| LibSynth.Synth.DispatchRound | lib/synth.cc:63-84 | one round renders up to the event's clamped offset and then applies the event at the frame count that offset reached, recording one slice and one dispatched event |
| LibSynth.Synth.DispatchNext | lib/synth.cc:63-84 | a round of the event loop takes the progression after i events to the one after i + 1, with the slice it adds ending at event i's clamped offset |
| LibSynth.Synth.PlayBlock | lib/synth.cc:62-89 | after the outputs are zeroed, the events and slices of the block leave the state and frames of the whole block's progression, and the slices tile the block, each of the first ones ending at its event's clamped offset |
| LibSynth.Synth.RenderVoice | lib/synth.cc:46-50 | a voice that is not IDLE is processed for one chunk and adds exactly its own output to the chunk's frames; an IDLE voice is left alone and adds nothing |
| LibSynth.Synth.RenderVoices | lib/synth.cc:46-50 | the voice loop leaves every voice as its chunk does and adds the pool's summed output, in pool order, to the chunk's frames and to no other frame |
| LibSynth.Synth.RenderChunk | lib/synth.cc:38-50 | one chunk is rendered by the pool it starts with, and the pool ends as that chunk leaves it |
| LibSynth.Synth.RenderRound | lib/synth.cc:36-51 | one round of the chunk loop renders min(frames left, maximum block size) frames and advances the loop's position, frame and chunk history by that chunk |
| LibSynth.Synth.RenderStep | lib/synth.cc:66-70 | rendering up to an event's clamped offset moves the synth from the progression reached to the progression rendered up to that offset, frames and chunks included |
| LibSynth.Synth.ZeroBlock | lib/synth.cc:59-60 | the first n output frames become 0 and the rest are unchanged |
| LibSynth.Synth.AllSoundOff | lib/synth.cc:92-97 | all_sound_off kills every voice once, in pool order |
| LibSynth.Synth.SystemReset | lib/synth.cc:99-104 | system_reset kills every voice and then resets the channels |
| LibSynth.Synth.SetLogLevel | lib/synth.cc:118-122 | set_log_level stores the threshold |
| LibSynth.Synth.Log | lib/synth.cc:150-200 | a message is handed to the log sink, unchanged, exactly when its level passes the threshold |
| SrcSynth.FirstUnused | src/synth.hh:79-85 | the voice add_voice reuses is the first unused one, every voice before it is used, and there is none exactly when every voice is used |
| SrcSynth.Slot | src/synth.hh:78-89 | the new voice goes to an existing slot or to the one just past the end |
| SrcSynth.UsedCount | src/synth.hh:99 | the number of used voices never exceeds the number of voices |
| SrcSynth.UsedCountUpdate | src/synth.hh:90-99 | replacing one voice changes the used count by what the old and new voice contribute |
| SrcSynth.UsedCountAppend | src/synth.hh:88 | appending a voice adds its contribution to the used count |
| SrcSynth.AllUsedIffNoneFree | src/synth.hh:79-89 | every voice is used exactly when add_voice finds no voice to reuse and appends |
| SrcSynth.AddVoiceEffect | src/synth.hh:75-102 | add_voice sets up the first unused voice, or appends one when all are used, as a used voice at position 0 for the region, channel and key; no other voice changes and exactly one more voice is used |
| SrcSynth.AddVoicesSnoc | src/synth.hh:141 | starting one more region is one more add_voice on the voices left by the earlier regions |
| SrcSynth.AddVoicesStep | src/synth.hh:110-148 | visiting one more region of note_on adds a voice exactly when that region plays |
| SrcSynth.AddVoicesCount | src/synth.hh:75-102 | starting voices for k regions uses k more voices, and the vector grows only as far as needed and never shrinks |
| SrcSynth.PlayedRegionsStep | src/synth.hh:110-148 | visiting one more region extends the played regions by it exactly when it plays |
| SrcSynth.PlayedRegionsSelect | src/synth.hh:110-148 | a region starts a voice exactly when it matches key, velocity and the attack trigger, is at its round-robin turn, covers the random number and has a loaded sample |
| SrcSynth.SelectionIgnoresCcRanges | src/synth.hh:116-132 | with the CC test compiled out, a region's locc and hicc ranges have no say in whether it plays |
| SrcSynth.AdvanceMatching | src/synth.hh:144-146 | advancing the counters keeps one region per region |
| SrcSynth.AdvanceMatchingCycles | src/synth.hh:144-146 | after note_on the counter of a matching region lies in 1 to max(1, seq_length) when it was not negative, and every other region is unchanged |
| SrcSynth.ReleasedUpToIff | src/synth.hh:150-160 | note_off releases the envelope of exactly the used voices on that channel and key whose region is not one-shot, once each, in pool order |
| SrcSynth.StatusSplits | src/synth.hh:185-186 | the message type and channel nibbles give back the status byte, and the channel is below 16 |
| SrcSynth.DispatchedKeepsVoices | src/synth.hh:183-197 | applying the queue never removes a voice and keeps the number of regions |
| SrcSynth.UsedIndices | src/synth.hh:200-204 | exactly the used voices are asked to render, once each and in pool order |
| SrcSynth.RenderedVoice | src/voice.cc:82-122 | a block changes only a voice's used flag and position, never makes an unused voice used, and leaves a voice that is not rendered as it was |
| SrcSynth.RenderedVoices | src/synth.hh:200-204 | the pool after a block has the same voices, each as its own block leaves it |
| SrcSynth.FrameDoneMixes | src/voice.cc:82-115 | what one frame of process adds to the outputs is exactly that voice's frame of the mix, with the envelope value scaled by 1/32768 |
| SrcSynth.UnusedMixIsSilent | src/synth.hh:200-204 | a pool without a used voice adds nothing to any frame |
| SrcSynth.StillUsedPlayedEveryFrame | src/voice.cc:82-115 | a voice still used after a block played every frame of it, frame k with the k-th envelope value |
| SrcSynth.AllPlayedInOrder | src/voice.cc:82-115 | in a block played throughout, every frame is played and takes the envelope value with its own index |
| SrcSynth.SilentFrameFreesVoice | src/voice.cc:112-115 | a voice with a silent frame in the block is no longer used after it, so add_voice may reuse it |
| SrcSynth.UsedCountMonotone | src/synth.hh:99 | a pool whose voices are used only where another's are has no more used voices |
| SrcSynth.RenderedVoicesUsed | src/synth.hh:200-204 | rendering a block keeps the size of the pool and never adds a used voice |
| SrcSynth.Synth.constructor | src/synth.hh:36-41 | a new synth holds the loaded regions, no voices, an empty queue and the default sample rate 44100 |
| SrcSynth.Synth.SetSampleRate | src/synth.hh:43-47 | set_sample_rate stores the rate |
| SrcSynth.Synth.FindUnused | src/synth.hh:79-85 | the loop finds the first unused voice, or none |
| SrcSynth.Synth.AddVoice | src/synth.hh:75-102 | add_voice leaves the voices as the add-voice function does |
| SrcSynth.Synth.NoteOn | src/synth.hh:103-149 | note_on leaves voices and regions as the note-on function does |
| SrcSynth.Synth.PlayRegions | src/synth.hh:110-148 | the region loop starts voices for exactly the regions that play, in order, and advances every matching region |
| SrcSynth.Synth.VisitRegion | src/synth.hh:112-147 | a region starts a voice exactly when it plays and is advanced exactly when key, velocity and trigger match |
| SrcSynth.Synth.NoteOff | src/synth.hh:150-160 | note_off records the release of exactly the matching voices in pool order |
| SrcSynth.Synth.AddMidiEvent | src/synth.hh:168-179 | a note-off or note-on message is appended to the queue with its three bytes, and any other message leaves the queue as it was |
| SrcSynth.Synth.Process | src/synth.hh:180-207 | process applies the whole queue in order, then each output frame of the block is the sum, in pool order, of what every voice of the new pool renders into it; the voices end as the block leaves them, exactly the used voices are asked to render, and the queue is empty |
| SrcSynth.Synth.RenderVoices | src/synth.hh:200-204 | the voice loop adds every voice's frames to the outputs in pool order and leaves each voice as its block does, and frames past the block unchanged |
| SrcSynth.Synth.RenderVoice | src/synth.hh:202-203 | one voice of the loop calls process only when it is used, adds its frames to the outputs and changes only that voice |
| SrcSynth.Synth.DispatchAll | src/synth.hh:183-197 | the queue loop applies every event in order |
| SrcSynth.Synth.DispatchEvent | src/synth.hh:185-196 | a 0x8n event is a note-off and a 0x9n event a note-on on channel n, any other changes nothing |
| SrcSynth.FirstUnusedIs | src/synth.hh:79-85 | an unused voice preceded only by used ones is the one add_voice reuses |
| SrcSynth.NoneUnused | src/synth.hh:86-89 | with every voice used add_voice finds nothing to reuse |
| Smoothing.Trunc | lib/utils.hh:107 | the float-to-int conversion truncates toward zero: the result lies within one of the value, on the side of zero |
| Smoothing.ResetSpec | lib/utils.hh:104-108 | reset changes only the ramp length, which becomes rate times time frames and is never below one |
| Smoothing.SetNowThenNext | lib/utils.hh:112-116 | setting a value now stops any ramp, and the next get_next returns that value |
| Smoothing.SetSameIsNoOp | lib/utils.hh:117-125 | setting the current target again without now changes nothing |
| Smoothing.IdleNextKeepsValue | lib/utils.hh:130-131 | with no ramp running, get_next returns the value and changes nothing, however often it is called |
| Smoothing.RampIsLinear | lib/utils.hh:132-137 | while a ramp runs, k calls of get_next move the ramp value by k equal steps |
| Smoothing.RampReachesTarget | lib/utils.hh:109-138 | a new target set without now is reached exactly after total_steps calls of get_next, after which the smoother returns the target |
| Smoothing.DbFromFactor | lib/utils.hh:68-75 | a factor that is not positive gives min_dB, a positive one 20 log10 of the factor |
| Smoothing.LinearSmooth.constructor | lib/utils.hh:96-102 | a new smoother is at value 0 with a ramp length of 1 and no ramp running |
| Smoothing.LinearSmooth.Reset | lib/utils.hh:104-108 | reset leaves the smoother as the reset function does |
| Smoothing.LinearSmooth.Set | lib/utils.hh:109-126 | set leaves the smoother as the set function does |
| Smoothing.LinearSmooth.GetNext | lib/utils.hh:127-138 | get_next returns the value and leaves the smoother as the next function does |
| Smoothing.LinearSmooth.IsConstant | lib/utils.hh:139-143 | is_constant holds exactly when no ramp runs, and then get_next returns the value unchanged |
| LfoGenerator.SupportedWaves | lib/lfogen.cc:208-227 | exactly the wave ids 0 to 7 and 12 are supported, and get_wave finds each wave under its own id and only there |
| LfoGenerator.PulseShapes | lib/lfogen.cc:169-184 | the pulse waves take only the values +0.5 and -0.5, +0.5 exactly below their duty threshold |
| LfoGenerator.TriangleShape | lib/lfogen.cc:155-164 | on a cycle the triangle stays in [-1, 1], is 0 at the start and end, 1 at a quarter and -1 at three quarters, and its second half mirrors the first |
| LfoGenerator.SawShapes | lib/lfogen.cc:185-192 | the two saws mirror each other and the rising one runs from -1 to 1 within [-1, 1] |
| LfoGenerator.StartLfo | lib/lfogen.cc:53-70 | a started LFO has its phase in [0, 1], fade position 0, and the wave and parameters of its region |
| LfoGenerator.StartClamps | lib/lfogen.cc:59-69 | start keeps a phase in [0, 1] as it is and clamps one outside to the nearer end, and a delay that is not positive gives delay length 0 |
| LfoGenerator.WithCcs | lib/lfogen.cc:235-238 | applying the CCs keeps the LFO's parameters and wave |
| LfoGenerator.ModLinksValid | lib/lfogen.cc:247-252 | the lfo_mod links of an LFO read that LFO and write an existing LFO |
| LfoGenerator.LinksOfValid | lib/lfogen.cc:240-252 | every link one LFO makes reads that LFO and writes an output or an LFO its lfo_mods name |
| LfoGenerator.AllLinksValid | lib/lfogen.cc:229-254 | every link update_ccs makes reads an existing LFO and writes an output or an existing LFO |
| LfoGenerator.Wrap | lib/lfogen.cc:115-116 | the wrapped phase is at most 1, unchanged when it was at most 1, and positive and smaller otherwise |
| LfoGenerator.FadeGain | lib/lfogen.cc:92-93 | the fade-in gain lies in [0, 1) |
| LfoGenerator.ProcessLfoCounters | lib/lfogen.cc:85-117 | the frames the delay takes plus those that advance fade and phase are exactly n, the delay never grows, the fade position never decreases nor passes the fade length, and the phase ends at most 1 |
| LfoGenerator.ProcessUpTo | lib/lfogen.cc:285-286 | running the LFOs keeps their number and waves and never takes back a random number |
| LfoGenerator.ApplyLink | lib/lfogen.cc:288-289 | a link changes only its destination output or its destination LFO |
| LfoGenerator.LinkUpTo | lib/lfogen.cc:288-289 | applying links keeps three outputs and the number of LFOs |
| LfoGenerator.LinkUpToKeeps | lib/lfogen.cc:288-289 | applying links never changes which outputs are active, their buffers, the waves or the LFO values |
| LfoGenerator.ActiveBefore | lib/lfogen.cc:262-269 | the active outputs before output k are at most k |
| LfoGenerator.AssignBuffers | lib/lfogen.cc:262-269 | the buffer assignment keeps the outputs' number |
| LfoGenerator.ActiveBeforeGrows | lib/lfogen.cc:262-269 | an active output counts for every later output's offset |
| LfoGenerator.BuffersDisjoint | lib/lfogen.cc:262-269 | the active outputs get consecutive slices of n values of the LFO buffer, in output order, that do not overlap |
| LfoGenerator.Cleared | lib/lfogen.cc:277-278 | clearing the values keeps the outputs' number |
| LfoGenerator.Shifted | lib/lfogen.cc:280-284 | taking over the frequency modulations keeps the LFOs' number |
| LfoGenerator.BlockSpec | lib/lfogen.cc:274-296 | one block keeps the generator ready, the number of LFOs, and which outputs are active with their buffers |
| LfoGenerator.Blocks | lib/lfogen.cc:271-297 | any run of blocks keeps the generator ready |
| LfoGenerator.BlockSpansStep | lib/lfogen.cc:275 | each block is min(32, remaining) values long |
| LfoGenerator.BlocksSnoc | lib/lfogen.cc:271-297 | one more block is one more block step on the state the earlier blocks left |
| LfoGenerator.BlockSpansTile | lib/lfogen.cc:271-297 | the blocks of process cover the values in order without gaps or overlaps, each 1 to 32 values long |
| LfoGenerator.LfoGen.constructor | lib/lfogen.cc:26-32 | a new generator has three inactive outputs, no LFOs and no links |
| LfoGenerator.LfoGen.Start | lib/lfogen.cc:34-83 | start gives one LFO per parameter set with its phase, delay and fade from the parameters and CCs and update_ccs applied, switches on exactly the outputs some LFO drives, and makes the links of update_ccs |
| LfoGenerator.LfoGen.StartAll | lib/lfogen.cc:47-80 | the loop of start gives one started LFO per parameter set and switches on exactly the driven outputs |
| LfoGenerator.LfoGen.UpdateCcs | lib/lfogen.cc:229-254 | update_ccs applies the CCs to every LFO and rebuilds the links, all of them valid |
| LfoGenerator.LfoGen.UpdateAll | lib/lfogen.cc:233-253 | the loop of update_ccs applies the CCs to every LFO and collects their links in order |
| LfoGenerator.LfoGen.LinksFor | lib/lfogen.cc:240-252 | the links of one LFO are its non-zero output amounts, then its non-zero lfo_mods, in order |
| LfoGenerator.LfoGen.AppendModLinks | lib/lfogen.cc:247-252 | the lfo_mod loop appends, in order, one frequency link for each lfo_mod with a non-zero amount |
| LfoGenerator.LfoGen.Process | lib/lfogen.cc:256-298 | with no LFO process changes nothing; otherwise the active outputs get their buffer slices and the state is that of the blocks of at most 32 values, in order |
| LfoGenerator.LfoGen.RunBlocks | lib/lfogen.cc:271-297 | the block loop computes the blocks of the whole range in order |
| LfoGenerator.LfoGen.Block | lib/lfogen.cc:274-296 | one block of the loop leaves the state as the block function does |
| LfoGenerator.LfoGen.ClearOutputs | lib/lfogen.cc:277-278 | the loop sets every output value to 0 |
| LfoGenerator.LfoGen.ShiftFreqMods | lib/lfogen.cc:280-284 | the loop moves every pending frequency modulation into place |
| LfoGenerator.LfoGen.RunLfos | lib/lfogen.cc:285-286 | the loop runs every LFO in order and counts the random numbers taken |
| LfoGenerator.LfoGen.ProcessLfo | lib/lfogen.cc:85-117 | process_lfo leaves one LFO as the per-LFO function does |
| LfoGenerator.LfoGen.WrapPhase | lib/lfogen.cc:115-116 | the wrap loop computes the wrapped phase |
| LfoGenerator.LfoGen.ApplyLinks | lib/lfogen.cc:288-289 | the link loop applies every link in order |
| LfoGenerator.SwitchOnStep | lib/lfogen.cc:72-79 | LFO i of start switches on exactly the outputs it drives |
| SampleCache.ReadCount | lib/samplecache.hh:219-232 | a read delivers at most the frames asked for and never past the end of the file, nothing exactly when nothing is asked or the start is at or past the end, and all that is asked when the file holds it |
| SampleCache.Frames | lib/samplecache.hh:236 | n frames are n times channels interleaved values |
| SampleCache.LoadBufferSpec | lib/samplecache.hh:198-246 | load_buffer always leaves the buffer loaded, also after a short read, and leaves a loaded buffer alone |
| SampleCache.FloatReadAsWrittenOverruns | lib/samplecache.hh:218-219 | as written, the float path of a 2-channel file of 3000 frames stores 4000 values into room for 2000 |
| SampleCache.FloatReadAsWrittenOverrunsWhenever | lib/samplecache.hh:218-219 | as written, every multichannel file with more than one buffer of frames left overruns the float buffer |
| SampleCache.BufferReadFits | lib/samplecache.hh:232 | asking for frames_per_buffer frames never stores more values than a buffer holds |
| SampleCache.Raised | lib/samplecache.hh:65-71 | update_max_buffer_index leaves the larger of the old value and the new one |
| SampleCache.GetReadsFile | lib/samplecache.hh:72-89 | once the buffer holding a position has been loaded from a file, get returns the file's value at that position |
| SampleCache.PositionInBuffer | lib/samplecache.hh:75-83 | every position of a file lies in the frames its buffer reads, at the in-buffer index get computes |
| SampleCache.GetOutsideLoaded | lib/samplecache.hh:76-88 | get in a missing or unloaded buffer returns silence and leaves max_buffer_index alone |
| SampleCache.Preloaded | lib/samplecache.hh:177-187 | the preload creates the asked number of buffers |
| SampleCache.PreloadedShape | lib/samplecache.hh:177-187 | after the preload exactly the first 20 buffers are loaded, each from its own range of the file, and the rest are empty |
| SampleCache.BufferCountCovers | lib/samplecache.hh:179-187 | the buffers cover every frame of the file and the last one starts inside it |
| SampleCache.Prefetched | lib/samplecache.hh:247-266 | the background load keeps the number of buffers |
| SampleCache.PrefetchWindowRule | lib/samplecache.hh:247-266 | the background load changes only unloaded buffers below max_buffer_index + 20, loads all of them when the file opens, and doing it again changes nothing |
| SampleCache.Unexpired | lib/samplecache.hh:111-129 | removing expired entries keeps exactly the slots whose weak reference is still alive, unchanged |
| SampleCache.UnexpiredForgetsDeadSlot | lib/samplecache.hh:136-140 | a slot that is dead, or was just inserted empty by the lookup, disappears with the other expired slots |
| SampleCache.UnexpiredIdempotent | lib/samplecache.hh:111-129 | removing expired entries twice removes nothing more |
| SampleCache.Entry.constructor | lib/samplecache.hh:49-63 | a new entry has no loop, no buffers, no samples, no playback and max_buffer_index 0 |
| SampleCache.Entry.Open | lib/samplecache.hh:157-187 | the entry load builds takes the file's channels, rate and sample count and name, has its buffers preloaded, and loops exactly when the file's first instrument loop is a forward loop |
| SampleCache.Entry.UpdateMaxBufferIndex | lib/samplecache.hh:65-71 | the compare-and-swap loop only ever raises max_buffer_index, to the larger value |
| SampleCache.Entry.Get | lib/samplecache.hh:72-89 | get returns the value at the position when its buffer is loaded and long enough, 0 otherwise, and raises max_buffer_index to a loaded buffer it reads |
| SampleCache.Entry.StartPlayback | lib/samplecache.hh:91-95 | start_playback counts one more playback |
| SampleCache.Entry.EndPlayback | lib/samplecache.hh:97-101 | end_playback counts one playback less |
| SampleCache.Entry.LoadBuffer | lib/samplecache.hh:198-246 | load_buffer changes only buffer b, as the load-buffer function does |
| SampleCache.Entry.Preload | lib/samplecache.hh:176-187 | the preload loop creates one buffer per started frames_per_buffer frames with the first 20 loaded |
| SampleCache.Entry.LoadMissing | lib/samplecache.hh:247-266 | the background loop loads the buffers as the prefetch function does |
| SampleCache.Cache.constructor | lib/samplecache.hh:286-289 | a new cache is empty |
| SampleCache.Cache.RemoveExpiredEntries | lib/samplecache.hh:111-129 | the erase loop drops exactly the slots whose weak reference expired |
| SampleCache.Cache.Load | lib/samplecache.hh:131-197 | load returns a live cached entry unchanged; otherwise it drops the expired slots and returns a new preloaded entry for an opened file, with the file's channels, sample rate and sample count and its first loop when that is a forward loop, cached under its name, or nothing when the file fails to open or close |
| SampleCache.TruncDiv | lib/samplecache.cc:29 | C++ integer division truncates the quotient toward zero |
| SampleCache.LookupSpec | lib/samplecache.cc:26-60 | lookup succeeds exactly when the computed buffer exists and has data, and then the window is that data from its start position to start plus length; otherwise the window is empty |
| SampleCache.LookupStartsAtOrBeforePos | lib/samplecache.cc:46-48 | for a position that is not negative, a successful lookup's window starts at or before the position, as the assertion demands |
| SampleCache.LookupNegativePositionHitsBufferZero | lib/samplecache.cc:29-48 | a negative position can still land in buffer 0, whose window then starts after the position |
| SampleCache.PlayHandle.Lookup | lib/samplecache.cc:26-60 | lookup sets the handle's window and max_buffer_index as the lookup function does and reports success |
| SfPool.Clamp | lib/sfpool.cc:93 | the clamped offset lies in the range and a value inside it is kept |
| SfPool.ReadSpec | lib/sfpool.cc:97-122 | a virtual read delivers the bytes at the offset, as many as asked or as are left, whichever is fewer |
| SfPool.ReadsConcatenate | lib/sfpool.cc:97-122 | two consecutive reads deliver what one read of both counts delivers |
| SfPool.MappedVirtualData.constructor | lib/sfpool.cc:69-70 | a new mapping holds the file's bytes with its size and offset 0 |
| SfPool.MappedVirtualData.GetFilelen | lib/sfpool.cc:72-75 | get_filelen returns the mapping's size |
| SfPool.MappedVirtualData.Seek | lib/sfpool.cc:77-95 | seek moves the offset relative to the offset, the start or the end, clamps it into the mapping and returns it |
| SfPool.MappedVirtualData.Read | lib/sfpool.cc:97-122 | read delivers the bytes of the read function, both in the fast case and byte by byte, returns their count and advances the offset by it |
| SfPool.MappedVirtualData.Tell | lib/sfpool.cc:124-127 | tell returns the offset, which lies inside the mapping |
| SfPool.SeekLands | lib/sfpool.cc:77-95 | a seek to an offset inside the mapping lands there, seeking by 0 from the current offset stays, and a seek back from the end is clamped at the start |
| SfPool.FramesRead | lib/sfpool.cc:31 | a frame read delivers at most the frames asked for and never past the end of the file |
| SfPool.Entry.constructor | lib/sfpool.hh:47-61 | a new entry holds its name, file, SF_INFO and time at position 0 |
| SfPool.Entry.SeekReadFrames | lib/sfpool.cc:22-35 | seek_read_frames seeks only when the position differs from the remembered one, reads from there, advances the remembered position by the frames read, and keeps it equal to the file's position |
| SfPool.Recent | lib/sfpool.cc:191-197 | the time limit keeps exactly the entries opened within max_time of now, unchanged |
| SfPool.Held | lib/sfpool.cc:166-177 | the mmap cleanup keeps exactly the entries another user holds, unchanged |
| SfPool.Pool.constructor | lib/sfpool.hh:64-74 | a new pool is empty |
| SfPool.Pool.Open | lib/sfpool.cc:134-158 | open returns a cached file with its time refreshed and the SF_INFO it was cached with; otherwise it caches a new entry, even for a file that did not open, and runs cleanup with the new entry held by the caller; no other entry's time, and no entry's name, open flag or SF_INFO, changes |
| SfPool.Pool.Cleanup | lib/sfpool.cc:160-207 | cleanup drops with mmap exactly the entries nobody else holds, and otherwise the entries older than max_time and then the oldest until at most max_fds remain |
| SfPool.Pool.DropUnheld | lib/sfpool.cc:166-177 | the erase loop drops exactly the entries nobody else holds |
| SfPool.Pool.DropStale | lib/sfpool.cc:191-197 | the time-limit loop drops exactly the entries older than max_time |
| SfPool.Pool.EnforceMaxFds | lib/sfpool.cc:200-205 | the max_fds loop leaves at most 64 entries and drops no entry younger than one it keeps |
| SfPool.Pool.Oldest | lib/sfpool.cc:181-189 | the first close candidate is an entry of least time |
| Hydrogen.NoteRegions | lib/hydrogenimport.cc:48-76 | note_region has one slot per MIDI note |
| Hydrogen.Cleaned | lib/hydrogenimport.cc:45-95 | cleanup_regions keeps the number of regions |
| Hydrogen.FirstInRangeIsFirst | lib/hydrogenimport.cc:53-61 | the in-range search finds a region whose range holds the note with none before it doing so, and finds none only when no region holds the note |
| Hydrogen.ClosestIsNearest | lib/hydrogenimport.cc:62-75 | the closest search picks a region of strictly smallest lovel distance below 128, the earliest among equals, and none when every distance is 128 or more |
| Hydrogen.AssignFindsRegion | lib/hydrogenimport.cc:50-76 | a note in 1..127 gets a region whenever some region's lovel lies in [0, 128] |
| Hydrogen.AssignRule | lib/hydrogenimport.cc:50-76 | the assigned region is the first in range, or failing that the one of nearest lovel, earliest among equals |
| Hydrogen.SpanBounds | lib/hydrogenimport.cc:80-91 | the span loop finds the least and greatest note assigned to a region, and 128 and 0 when it has none |
| Hydrogen.CleanedRanges | lib/hydrogenimport.cc:77-94 | after cleanup_regions every region keeps its sample and place, its new range runs from its least to its greatest assigned note and holds all of them, and a region with no note gets lovel 128 and hivel 0 |
| Hydrogen.CleanedCoversEveryNote | lib/hydrogenimport.cc:45-95 | when some region's lovel lies in [0, 128], every note 1..127 lies in the new range of the region it was assigned to |
| Hydrogen.FindInRange | lib/hydrogenimport.cc:53-61 | the loop with its break finds the first region in range |
| Hydrogen.FindClosest | lib/hydrogenimport.cc:65-74 | the loop finds the closest region as the search function does |
| Hydrogen.AssignNotes | lib/hydrogenimport.cc:50-76 | the first step assigns every note as the assignment function does |
| Hydrogen.NoteSpan | lib/hydrogenimport.cc:80-91 | the note loop computes the least and greatest note assigned to the region |
| Hydrogen.CleanupRegions | lib/hydrogenimport.cc:45-95 | cleanup_regions rewrites the array in place into the cleaned regions |
| Hydrogen.RegionPieces | lib/hydrogenimport.cc:182-190 | one region block is printed per region |
| Hydrogen.GroupsAppend | lib/hydrogenimport.cc:140-208 | the group headers of two runs of blocks are those of each, in order |
| Hydrogen.RegionPiecesHaveNoGroup | lib/hydrogenimport.cc:182-190 | region blocks contain no group header |
| Hydrogen.BodyHasNoGroup | lib/hydrogenimport.cc:161-204 | the blocks after an instrument's header contain no group header |
| Hydrogen.InstrumentGroup | lib/hydrogenimport.cc:142-159 | instrument i prints exactly one group header, on key 36 + i, with group and off_by both i + 1 |
| Hydrogen.GroupsNumbered | lib/hydrogenimport.cc:137-208 | the k-th group header printed belongs to instrument k: key 36 + k, group and off_by k + 1 |
| Hydrogen.GroupsNumberedSnoc | lib/hydrogenimport.cc:137-208 | pieces printing k - 1 numbered group headers followed by an instrument printing the k-th print k numbered headers |
| Hydrogen.NoRegionsIff | lib/hydrogenimport.cc:189-210 | no region is emitted exactly when no instrument has a layer or a filename |
| Hydrogen.EmitInstrument | lib/hydrogenimport.cc:142-207 | the loop body prints the blocks of one instrument and counts its regions |
| Hydrogen.EmitInstruments | lib/hydrogenimport.cc:138-208 | the instrument loop leaves the blocks of every instrument in order after the header text, and the total of their region counts |
| Hydrogen.PiecesStep | lib/hydrogenimport.cc:140-208 | one more pass of the loop extends the text by exactly the next instrument's blocks |
| Hydrogen.Parse | lib/hydrogenimport.cc:123-216 | parse appends the blocks of every instrument in order and succeeds exactly when some instrument emitted a region |
| ArgParsing.FirstPositional | lib/argparser.cc:43-58 | the first positional argument found is positional with none before it, and none is found only when no argument is positional |
| ArgParsing.Without | lib/argparser.cc:49 | erasing one argument keeps the others in order |
| ArgParsing.OptScan | lib/argparser.cc:61-84 | scanning for an option never adds arguments |
| ArgParsing.OptScanKeepsArgs | lib/argparser.cc:61-84 | every argument left after parse_opt was an argument before |
| ArgParsing.OptScanDropsAssignments | lib/argparser.cc:75-80 | no argument left after parse_opt starts with "option=" |
| ArgParsing.OptScanOptionLast | lib/argparser.cc:69-74 | the option itself survives parse_opt only as the very last argument |
| ArgParsing.OptScanAbsent | lib/argparser.cc:61-84 | when no argument is the option or starts with "option=", parse_opt finds nothing and removes nothing |
| ArgParsing.OptScanPresent | lib/argparser.cc:61-84 | an "option value" pair or an "option=value" argument anywhere in the list makes parse_opt find a value |
| ArgParsing.OptScanFoundHasSource | lib/argparser.cc:61-84 | a value parse_opt finds comes from an "option value" pair or an "option=value" argument of the list |
| ArgParsing.OptScanFoundIff | lib/argparser.cc:61-84 | parse_opt reports a value exactly when the list holds an "option value" pair or an "option=value" argument |
| ArgParsing.TrailingOptionKept | lib/argparser.cc:69 | a lone trailing option with no value is kept and not reported |
| ArgParsing.PairStep | lib/argparser.cc:69-74 | erasing an "option value" pair at the loop position keeps the scan of the rest |
| ArgParsing.AssignStep | lib/argparser.cc:75-80 | erasing an "option=value" argument at the loop position keeps the scan of the rest |
| ArgParsing.KeepStep | lib/argparser.cc:81 | stepping over a kept argument keeps the scan of the rest |
| ArgParsing.FirstEqual | lib/argparser.cc:113-120 | the first argument equal to the option is found, and none only when the option is absent |
| ArgParsing.ArgParser.constructor | lib/argparser.cc:34-38 | the parser keeps argv[1..argc) in order |
| ArgParsing.ArgParser.ParseCmd | lib/argparser.cc:40-59 | parse_cmd succeeds exactly when the first positional argument is cmd, removing it; otherwise nothing changes |
| ArgParsing.ArgParser.ParseOptString | lib/argparser.cc:61-84 | parse_opt removes every "option value" pair and "option=value" argument, reports whether it found one, and sets out_s to the last value found, keeping it otherwise |
| ArgParsing.ArgParser.ParseOptInt | lib/argparser.cc:86-96 | the int form sets out_i to atoi of the last value found, keeping it otherwise |
| ArgParsing.ArgParser.ParseOptReal | lib/argparser.cc:98-108 | the float form sets out_f to atof of the last value found, keeping it otherwise |
| ArgParsing.ArgParser.ParseFlag | lib/argparser.cc:110-122 | the flag form removes the first argument equal to the option and reports whether there was one |
| ArgParsing.ArgParser.ParseArgs | lib/argparser.cc:124-133 | parse_args succeeds exactly when the expected number of arguments is left, and then hands them out |
| CliParsing.RunAdvance | src/cliparser.cc:52-103 | the tokenizer loop advances by exactly one character step, and a rejected character ends the run with the tokens pushed so far |
| CliParsing.WordLen | src/cliparser.cc:67-70 | the run of word characters is never longer than the text |
| CliParsing.WordLenOfWord | src/cliparser.cc:67-70 | a run of word characters followed by anything else is measured exactly |
| CliParsing.WordsAfterWord | src/cliparser.cc:71-77 | a word followed by a blank is one whole token of the reference splitter |
| CliParsing.RunLine | src/cliparser.cc:50-52 | running over a line with its '\n' appended advances by the line's first character |
| CliParsing.PlainTail | src/cliparser.cc:54-70 | the rest of a plain line is plain and its first character is a word character or a blank |
| CliParsing.RunPlainBlank | src/cliparser.cc:54-77 | from the blank state a plain line and its '\n' append exactly the line's words |
| CliParsing.RunPlainWord | src/cliparser.cc:67-77 | inside a word a plain line and its '\n' append exactly the words of the pending word and the line |
| CliParsing.WordAtEnd | src/cliparser.cc:71-77 | the '\n' appended to the line pushes a pending word and ends in the blank state |
| CliParsing.TokenizePlain | src/cliparser.cc:44-105 | a line of word characters and blanks tokenizes, successfully, into its maximal runs of word characters |
| CliParsing.WordsOfJoin | src/cliparser.cc:54-77 | splitting words joined by single blanks gives them back when each is a non-empty run of word characters |
| CliParsing.TokenizeJoin | src/cliparser.cc:44-105 | a command typed as words separated by single blanks tokenizes back into exactly those words |
| CliParsing.RunCons | src/cliparser.cc:52-103 | the tokenizer over a first character and the rest is one step followed by the run over the rest, or a rejection |
| CliParsing.RunEscapedChar | src/cliparser.cc:78-90 | inside quotes one escaped character adds exactly that character to the pending token |
| CliParsing.RunEscaped | src/cliparser.cc:78-90 | inside quotes an escaped text adds exactly the text to the pending token |
| CliParsing.QuotedRoundTrip | src/cliparser.cc:59-90 | any text, the empty one included, written escaped between quotes is read back as exactly one token equal to it |
| CliParsing.UnterminatedQuoteFails | src/cliparser.cc:104 | a line that ends inside quotes is rejected |
| CliParsing.CommentSwallows | src/cliparser.cc:91-98 | a comment swallows every character after it and never fails |
| CliParsing.RunWordChars | src/cliparser.cc:67-70 | word characters after the first extend the pending word |
| CliParsing.LeadingWord | src/cliparser.cc:54-70 | a word the line starts with becomes the pending word |
| CliParsing.WordBeforeCommentDropped | src/cliparser.cc:91-94 | a word written right before '#' is dropped with the comment, so the line has no tokens |
| CliParsing.OtherCharFails | src/cliparser.cc:99-102 | a character that is not a word character, a blank, a quote or '#' rejects the line, also right after a word |
| CliParsing.Convert | src/cliparser.cc:107-126 | convert never fails and gives atoi, atof or the token itself according to the argument type |
| CliParsing.ConvertAll | src/cliparser.hh:53-91 | the convert chain succeeds and converts every argument token with its own type |
| CliParsing.CommandSpec | src/cliparser.hh:42-92 | a command overload matches exactly when the line tokenized without error into the command name and as many arguments as the overload takes; then every argument is converted, otherwise the arguments keep their values |
| CliParsing.CommandOfTypedLine | src/cliparser.hh:42-92 | after parsing a command typed as plain words, the overload with that name and arity matches it with the typed arguments |
| CliParsing.CliParser.constructor | src/cliparser.hh:26-28 | a parser before its first line has no tokens and no error |
| CliParsing.CliParser.Tokenize | src/cliparser.cc:44-105 | the tokenizer loop leaves the tokens and the result of the state machine over the line and its '\n' |
| CliParsing.CliParser.Parse | src/cliparser.cc:36-42 | parse tokenizes the line and records whether that failed |
| CliParsing.CliParser.EmptyLine | src/cliparser.hh:38-41 | empty_line holds exactly when the last line parsed without error into no tokens |
| CliParsing.CliParser.Command | src/cliparser.hh:42-92 | on a parser holding a parsed line, a command overload gives exactly what the overload gives on that line's tokenization (whether the tokenizer failed, and the tokens) |
| CliParsing.BlankLineIsEmpty | src/cliparser.hh:38-41 | blank lines and comment lines are empty lines |
| CliParsing.BlanksHaveNoWords | src/cliparser.cc:63-66 | a run of blanks contains no word |
| CliParsing.BlanksThenComment | src/cliparser.cc:63-98 | blanks followed by a comment tokenize into no tokens, successfully |

## Left out

- Host and plugin plumbing (LV2, the fluidsynth glue, `main`, the forwarding API wrappers): not part of the sampler's logic.
- File, sound-file and XML I/O. `fopen`/`fgetc`, `sf_open`/`sf_readf_*`, `mmap` and pugixml traversal become abstract inputs: a file map, a `SoundFile` record of channels, frames and values, and a list of instrument records.
- `std::regex` scanning of SFZ text and `strip_spaces`. The loaders are modelled from already-split tags and `key=value` pairs. The `#include` pattern is modelled by a small scanner that takes the name between the first quote and the last character.
- Path helpers (`path_join`, `path_absolute`, `fs::absolute`, getcwd/dirname): the `sample` opcode stores the value with separators normalised, and included names are looked up verbatim.
- Concurrency: the sample cache's loader thread, mutex and atomics, and the global mutex. The compare-and-swap loop of `update_max_buffer_index` is modelled by its max semantics. The non-live-mode busy wait in `lookup` is left out.
- Floating-point DSP: filters, upsampling, the pan sine law, `db_to_factor`, `exp2f` replay speed, the LFO sine wave, `post_function`, and the exponential smoothing in `write_output`. Where the model needs these values they are parameters, as is `log10` in `db_from_factor`.
- The float-to-short clamp in `load_buffer`: sample values are taken as given, and only how many are read is modelled.
- Randomness: `std::minstd_rand` output is a parameter in [0, 1). The LFO sample-and-hold wave takes its random values from a parameter function.
- Time: `get_time` is the `now` parameter of the sound-file pool.
- Logging: the text of log messages is not modelled. `LibSynth.Synth.Log` records which messages reach the sink; `printf`-style warnings elsewhere are left out.
- Code that is only declared or not shown: `SampleReader::skip_to`, `Envelope`, `Curve`, `process_impl`, `update_pitch_bend`, `xfin_gain`, `Voice::kill`/`stop` and `init_channels`. Kill and channel reset are recorded as calls. A pitch-bend event leaves the model's state unchanged. The envelope is a sequence of values.
- `MAX_BLOCK_SIZE` and `frames_overlap` are not defined in the sources modelled here: they are parameters.
- `lib/synth.hh:298-324`, the header's older `process` that applies all events before rendering, is not part of this model. `lib/synth.cc:56-90` is modelled instead.
- LibSynth.Synth.Process: requires the queued events' offsets to be non-decreasing, because with an unsorted queue the unsigned `new_offset - offset` underflows.
- LibSynth.Render: `replay_speed` (`exp2f` of the pitch), the values the envelope's `get_next` returns in each chunk and the global gain are parameters. `RenderOk` asks only that the replay speed is never negative. Output sums use exact real arithmetic, not `float`.
- LibSynth.Synth.constructor: requires a positive sample rate and block size and regions that are well formed and whose cached samples can be played (one or two channels). The loader does not promise these; the model takes them as the synth's invariant.
- LibSynth.Synth.UpdateCc and LibSynth.Synth.GetCc use the bound checks `>=` instead of the source's `>` (see Findings).
- VoicePool.ReleaseAt: starts release voices only for release regions with a cached sample; `release` in lib/synth.hh:195-207 has no such check (see Findings; the loop as written is VoicePool.ReleaseRegionsAsWritten).
- VoicePool.ReleaseRegions: selects only regions with a cached sample, the check lib/synth.hh:195-207 lacks (see Findings).
- LibSynth.Synth.ReleaseVoice: releases through the corrected VoicePool.ReleaseAt, so it never starts a voice on a release region whose sample did not load.
- LibSynth.Synth.NoteOn: its release of overlapping voices goes through the corrected VoicePool.ReleaseAt.
- LibSynth.Synth.NoteOff: its release goes through the corrected VoicePool.ReleaseAt.
- LibSynth.Synth.UpdateCc: the pedal release goes through the corrected VoicePool.ReleaseAt.
- VoicePool.SweepKeepsPoolValid: "every busy voice plays a loaded sample" holds for the corrected release only; the release as written can start a voice without a sample.
- SampleCache.LoadBufferSpec: reads `frames_per_buffer` frames into a buffer, the corrected read; lib/samplecache.hh:218-219 asks for `frames_per_buffer * channels` frames (see Findings).
- SampleCache.Entry.LoadBuffer: loads a buffer as SampleCache.LoadBufferSpec does, with the corrected read size.
- VoicePlayback.ReadIndex: `uint (ppos_)` of a position of 2^32 or more is undefined in C++; the model takes the integer part.
- SrcSynth.Synth.Process: renders only voices for which `Renders` holds. A used voice without a cached sample, or with a sample of other than one or two channels, is skipped; for such a voice the source dereferences a null pointer or fails its `assert`. Note-on starts voices only for regions with a cached sample.
- SrcSynth.Render: the replay step of each voice (`note_to_freq` uses `exp` and `log`) and the envelope's `get_next` values are parameters. Output sums use exact real arithmetic, not `float`.
- SrcSynth: a voice keeps a copy of its region, so the aliasing between a voice's region and the region's `play_seq` is not modelled. Envelope release is a log of voice indices.
- SampleCache: weak-pointer liveness is the `alive` set, and `cache_stats` is left out. The result of `sf_close` is a parameter.
- SampleCache.LookupStartsAtOrBeforePos: holds for the buffer layout in which each buffer starts within the overlap before its nominal start, and for pos >= 0; the source only asserts it.
- SfPool: `use_count` is the `held` set of entries that callers still share. The `mmap`/`open`/`fstat` system calls and the entry destructor are left out. Virtual reads copy byte values; frame reads are modelled by their counts only. Eviction order among entries of equal time is left open, as `std::sort` leaves it.
- Hydrogen: `lrint` rounding of the XML velocities is taken as already applied. `use_midi_out_note` is the constant false. `detect` is left out.
- Text.Atof / Text.Atoi: `Text.Atof` reads decimal notation (sign, digits, an optional fraction and an optional `e`/`E` exponent) with exact real arithmetic. It does not read the `inf`, `infinity` and `nan` spellings or hexadecimal floats (`0x10`), which C `atof` accepts and which the model reads as 0. It does not round to the nearest `double` and does not overflow to infinity. `Text.Atoi` uses unbounded integers. In C an `int` overflow in `atoi` (for example `loop_end=5000000000`) is undefined. Every value read through them inherits these gaps: Opcodes.Apply, CliParsing.Convert and ArgParsing.ArgParser.ParseOptReal.
- Opcodes.Apply: the float opcodes (`lorand`, `hirand`, `ampeg_delay` to `ampeg_release`, `volume`, `amp_veltrack`, `pan` and `rt_decay`, read with `atof`) take `Text.Atof`'s value, so `inf`, `nan` and hexadecimal spellings read as 0 and values are not rounded to `float`. The integer opcodes take `Text.Atoi`'s unbounded value, so an out-of-range `int` is kept exactly where C has undefined behaviour.
- CliParsing.Convert: a float argument is `Text.Atof` of the token and an int argument `Text.Atoi` of it, with the same gaps (no `inf`/`nan`/hexadecimal spellings, no rounding to `double`, no `int` overflow).
- ArgParsing.ArgParser.ParseOptReal: `parse_opt(option, float&)` sets the value to `Text.Atof` of the option's text, with the same gaps (no `inf`/`nan`/hexadecimal spellings, no rounding to `float`).
- CliParsing: `tokenizer_error` is uninitialised in the source before the first `parse`; the model starts with false and no tokens. Each `command` overload is one function over a list of argument kinds, covering 0 to 6 arguments. Because `convert` never fails, the source's `&&` chain of converts reduces to converting every argument.
- Test programs (`tests/`, `src/testperf.cc`, `src/testliquid.cc`): they rely on FFTs, sound files and timing.

## Findings

| source | as written | input that shows it | evidently intended | confidence | as-written member | corrected member |
|---|---|---|---|---|---|---|
| lib/synth.hh:213 | `update_cc` (also `get_cc`, lines 219, 241, 247) rejects a channel or controller only when it is greater than the vector's size | channel 16 with 16 channels passes the check and indexes past the end | reject an index equal to the size too (`>=`) | high, not executed | SynthSpec.IndexAsWrittenAdmitsSize | SynthSpec.IndexChecksDifferOnlyAtSize |
| lib/synth.hh:195-207 | `release` starts release-trigger voices without the cached-sample check that `note_on` makes | a release region on key 60 whose sample failed to load, released at key 60 velocity 100, gets a voice with no sample | start release voices only for regions with a cached sample, as `note_on` does | medium, not executed | VoicePool.ReleaseAsWrittenStartsSamplelessVoice | VoicePool.ReleaseAtEffect |
| lib/samplecache.hh:218-219 | the float read asks `sf_readf_float` for `frames_per_buffer * channels` frames, which is that many frames times the channel count in values | a 2-channel file of 3000 frames: the first buffer reads 4000 values into room for 2000 | ask for `frames_per_buffer` frames, as the short read at line 232 does | high, not executed | SampleCache.FloatReadAsWrittenOverruns | SampleCache.BufferReadFits |
