# Waste-sorting classify-and-dispatch loop, modelled in Dafny

The system watches a live camera feed. When the operator presses SPACE it
classifies the current frame into a material category. If the classifier's
confidence is at least 0.85, it sends one command byte over a serial link to
an actuator controller that drops the item into a bin. The model covers the
three pieces of `src/gui.py` that make up this loop:

- `normalizar` (module `Normalization`, `normalization.dfy`). The category
  label goes through three stages: Unicode canonical decomposition (NFD,
  Unicode Standard Annex #15, section 1.2), dropping every non-ASCII code
  point, and lower-casing. `Fold` is a second definition that works one code
  point at a time, and `NormalizeIsFold` proves the two agree.
- `enviar_a_arduino` (module `Dispatch`, `dispatch.dfy`). The serial handle is
  `Disconnected | Connected(log)`, where `log` holds every byte written so far.
  The four bin names map to `'M'`, `'P'`, `'L'` and `'O'`. `Send` follows the
  source's if-chain. Its contract is stated against the separate table
  `CommandFor`.
- `display_feed` (module `ControlLoop`, `control_loop.dfy`). The camera is a
  finite sequence of ticks. Each tick is the frame `cap.read()` returned
  (`None` when the read failed) plus the key code that the `cv2.waitKey(1)`
  poll right after it reported (`src/gui.py:49`).
  Reading past the end of the sequence fails, as at the end of a stream. The
  classifier is a function parameter, `F -> Option<Classification>`. `None`
  means the call raised. Confidence is a `real` in [0, 1].
  - `Loop` is the recursive reference for the `while True` loop.
  - `Feed` adds the release step that follows the loop.
  - `DisplayFeed` is the loop as the source writes it: `while true`, `break`
    on a failed read or ESC, an early return when the classifier raises. It is
    proved equal to `Feed`.

`Wrappers` (`wrappers.dfy`) holds the shared `Option` type.

The initial state of the serial link is a parameter. It stands for the
outcome of the start-up connection attempt at `src/gui.py:9-15`.

Not every exit releases the capture. `display_feed` has no
`try`/`finally`, so when `classify_frame_opencv` raises, the exception
propagates past `cap.release()` and `cv2.destroyAllWindows()`. The model
keeps this behaviour: `Feed` reports `released` exactly when the stop reason
is not `ClassifierRaised`.

## Model

| member | source | states |
|---|---|---|
| Normalization.Normalize | src/gui.py:18-21 | every character of the result is ASCII and none is an upper-case letter A-Z |
| Normalization.NormalizeIsFold | src/gui.py:18-21 | the three-stage normalisation equals the one-code-point-at-a-time reference: a table letter becomes its lower-case base letter, another ASCII character becomes its lower-case self, any other code point is removed |
| Normalization.NormalizeIdempotent | src/gui.py:18-21 | normalising twice gives the same result as normalising once |
| Normalization.NormalizeFixesNormalized | src/gui.py:18-21 | a string that is already ASCII and has no capitals is returned unchanged |
| Normalization.NormalizeAsciiIsLower | src/gui.py:18-21 | on ASCII-only input, normalisation is plain lower-casing |
| Normalization.StripsAccent | src/gui.py:19-20 | an accented letter of the decomposition table normalises to its lower-case base letter alone |
| Normalization.NormalizeConcat | src/gui.py:18-21 | normalising a concatenation gives the concatenation of the normalised parts |
| Normalization.NormalizeLength | src/gui.py:18-21 | the result is never longer than the input: each code point yields at most one character |
| Normalization.NormalizePlastico | src/gui.py:19-21 | "Plástico" normalises to "plastico" |
| Normalization.NormalizeOrganico | src/gui.py:19-21 | "Orgánico" normalises to "organico" |
| Normalization.NormalizeCapitalised | src/gui.py:19-21 | "METAL" and "Metal" normalise to "metal", and "Papel" to "papel" |
| Normalization.Nfd | src/gui.py:19 | decomposition makes the string at least as long and at most twice as long, and leaves ASCII-only input unchanged |
| Normalization.Decompose | src/gui.py:19 | the NFD table: an entry exists only for a non-ASCII letter, and decomposes it into an ASCII base letter followed by a non-ASCII combining mark |
| Normalization.DecomposeChar | src/gui.py:19 | a code point expands to one or two code points; ASCII stays itself; a two-code-point expansion is an ASCII base followed by a non-ASCII mark |
| Normalization.AsciiOnly | src/gui.py:20 | the result is all ASCII, is no longer than the input, keeps ASCII-only input unchanged, and contains a character exactly when the input contains it and it is ASCII |
| Normalization.LowerChar | src/gui.py:21 | the result is not upper-case; it is ASCII exactly when the input is; capitals move down by the distance from 'A' to 'a'; other characters are unchanged |
| Normalization.Lower | src/gui.py:21 | `str.lower` on the filtered string: the length is kept and each character is lower-cased in place |
| Dispatch.CommandFor | src/gui.py:29-36 | the command table has an entry exactly for metal, plastico, papel and organico; each entry is a protocol byte M, P, L or O, and each key is already in normal form |
| Dispatch.Send | src/gui.py:23-36 | with no link, nothing changes; with a link, the log grows by the table byte of the normalised label when there is one, and stays the same when there is none |
| Dispatch.SendIsDeliver | src/gui.py:23-36 | a dispatch appends exactly the command bytes of the label's normalised name to a live link, and leaves a missing link missing |
| Dispatch.CommandForAlphabet | src/gui.py:29-36 | the table has an entry exactly for metal, plastico, papel and organico, and every byte it yields is one of M, P, L, O |
| Dispatch.CommandForInjective | src/gui.py:29-36 | two different bin names get two different command bytes |
| Dispatch.CommandKeysAreNormalized | src/gui.py:27-36 | every bin name normalises to itself, so each bin can be reached |
| Dispatch.SendDisconnected | src/gui.py:24-25 | without a link, dispatching any label leaves the channel Disconnected |
| Dispatch.SendPlastico | src/gui.py:27-32 | with a link, "Plástico" appends exactly 'P' |
| Dispatch.SendOrganico | src/gui.py:27-36 | with a link, "Orgánico" appends exactly 'O' |
| Dispatch.SendMetal | src/gui.py:27-30 | with a link, "Metal" and "METAL" each append exactly 'M' |
| Dispatch.SendPapel | src/gui.py:27-34 | with a link, "Papel" appends exactly 'L' |
| Dispatch.SendUnmapped | src/gui.py:27-36 | with a link, "vidrio" appends nothing |
| ControlLoop.Loop | src/gui.py:43-67 | the loop stops at the first tick whose read fails, whose key is ESC, or whose classification raises, and every earlier tick proceeds; the stop reason is ReadFailed exactly on a failed read or the end of the stream, and ExitKey exactly on ESC |
| ControlLoop.Gate | src/gui.py:66-67 | below the 0.85 threshold the link is unchanged; at or above it, the link receives exactly the command bytes of the category's normalised name |
| ControlLoop.LoopShown | src/gui.py:53-56 | the classifications shown are exactly those of the SPACE ticks before the stop, in order |
| ControlLoop.LoopChannel | src/gui.py:66-67 | the link receives exactly the command bytes of the shown classifications whose confidence reaches 0.85, in order |
| ControlLoop.LoopIgnoresAfterStop | src/gui.py:44-52 | once the loop has stopped inside the stream, appending further ticks changes nothing: nothing after the stop is read or classified |
| ControlLoop.Feed | src/gui.py:40-70 | a whole session stops at the first tick that does not proceed, every earlier tick proceeds, the stop is a classifier exception exactly when it falls on a SPACE tick with a frame, and capture and windows are released on every exit except that one |
| ControlLoop.FeedContents | src/gui.py:53-67 | a session shows exactly the SPACE classifications before its stop, in order, and delivers exactly their gated command bytes to the link |
| ControlLoop.DisplayFeed | src/gui.py:40-70 | the imperative while-true loop with breaks and an early return computes the same session as Feed, and releases exactly when the classifier did not raise |
| ControlLoop.FeedBytesBounded | src/gui.py:53-67 | over a live link, bytes are only appended, all are M, P, L or O, and there are at most as many as gated classifications, which are at most the SPACE ticks processed |
| ControlLoop.FeedDisconnected | src/gui.py:24-25 | a session without a link never writes |
| ControlLoop.FeedFirstReadFails | src/gui.py:44-46 | when the first read fails, the session ends at tick 0: nothing is classified, the link is unchanged, and everything is released |
| ControlLoop.FeedGate | src/gui.py:66-67 | one SPACE press on a frame whose category has a bin shows that classification; it sends the bin's byte exactly when the confidence is at least 0.85, and sends nothing exactly when the confidence is below |
| ControlLoop.FeedUnmapped | src/gui.py:66-67 | a category without a bin is never sent, whatever its confidence |
| ControlLoop.FeedPlastico | src/gui.py:53-67 | ("Plástico", 0.93) writes exactly one 'P' and is shown |
| ControlLoop.FeedPapelBelowThreshold | src/gui.py:53-67 | ("Papel", 0.40) is shown and writes nothing |
| ControlLoop.FeedAtThreshold | src/gui.py:66-67 | ("Papel", 0.85): a confidence of exactly the threshold dispatches, writing one 'L' |
| ControlLoop.FeedJustBelowThreshold | src/gui.py:66-67 | ("Papel", 0.849): a confidence just below the threshold writes nothing |

## Left out

- Normalization.Decompose: canonical decomposition is a table covering á é í ó ú ü ñ and their capitals. Every other code point is treated as its own decomposition, so an accented letter outside the table (for example ç) is dropped, while full NFD would keep its base letter. Canonical reordering of combining marks is not modelled. It cannot change the result: ASCII characters never move, and every mark is dropped afterwards.
- Normalization.LowerChar: `str.lower` is modelled on ASCII only. It runs after the ASCII filter, so this is exact for `normalizar`.
- Opening the serial port (`COM12`, 9600 baud, 1 s timeout, the 2 s settling delay and the status messages, `src/gui.py:9-15`): only the resulting Connected/Disconnected choice is modelled, as the initial channel.
- Dispatch.Deliver: a write on a live link always succeeds. An exception raised by `arduino.write` would propagate out of the loop; that path is not modelled.
- Rendering and timing: `cv2.imshow`, `cv2.putText`, the 1 ms key poll, the pause of up to 1000 ms after a classification, and the console messages are not modelled. The overlay and the printed line become the `shown` sequence of classifications.
- The pause after a classification is `cv2.waitKey(1000)` (`src/gui.py:64`). It lasts up to 1000 ms and ends early at the first key press. That one key is consumed and discarded, so an ESC pressed then does not end the loop. A tick's key is only the result of the `cv2.waitKey(1)` poll at `src/gui.py:49`.
- The overlay text `"<category> (<confidence*100:.1f>%)"` is not modelled, because it depends on floating-point formatting.
- Floating point: confidences are reals in [0, 1], and the threshold is the real 0.85, which stands for the double nearest 0.85. Key codes are plain integers compared with 27 and 32; every other code, including -1 for no key, is "no trigger".
- The classifier (`src/classifier_stub.py`: OpenCV preprocessing and `model.predict`) is a function parameter. Its label vocabulary is not constrained.
- `src/train.py` (offline training), `src/camera.py` and `src/main.py` (opening the camera and calling the loop), and `arduino.py` (a hardware test script) are not part of this model.
