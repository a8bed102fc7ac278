# RecordingTranscribe transcriber: a Dafny model

This project models the decision logic of `modules/transcriber.py` in
RecordingTranscribe. That is the Flask application that records audio and
transcribes it with the SpeechRecognition library. The model covers:

- the fixed table of thirteen recognition languages, and the silent fallback
  to Dutch (`nl-NL`) for any code outside it;
- the case-insensitive `.wav` test, which decides whether a file is converted
  before recognition;
- the engine choice in `transcribe_with_options`: `sphinx` is served by Google
  for Dutch (reported as `google (fallback)`), and every other engine name by
  Google;
- the result record of `transcribe_with_options`: its defaults and which field
  each path fills in;
- how `transcribe_audio` turns each recogniser failure into a return value or
  an exception, and how `transcribe_with_options` turns it into an error
  message;
- the `.txt` rule of `save_transcription`, and its composition with the
  `.wav` → `.txt` replacement that the HTTP transcribe route applies first.

The file system, the converter, the two recognisers and the file store are
outside the model. A `World` value gives their answers to one request:
`fileExists`, `convert`, `record` (which opens and reads the WAV file),
`google` (which receives the audio and the language) and `sphinx`. `save_transcription` receives the store as a function
parameter. The Python exceptions that reach the except clauses are the
`Failure` datatype. The exceptions raised to callers are `Raised`.

Files:
- `strings.dfy` (module `Strings`): lower-casing and the prefix and suffix
  tests.
- `languages.dfy` (module `Languages`): the language table and normalisation.
- `transcriber.dfy` (module `Transcriber`): routing, messages,
  `TranscribeAudio`, `TranscribeWithOptions` and `SaveTranscription`.
- `web_naming.dfy` (module `WebNaming`): the route's replacement of `.wav` by
  `.txt`.

`transcribe_audio`, `transcribe_with_options` and `save_transcription` are
methods. They reassign their locals, and `transcribe_with_options` updates its
result record field by field, as the source does. Each method's `ensures` ties
its result to the specification functions (`NormaliseLanguage`, `ChooseRoute`,
`TryTranscribe`, `ErrorMessage`, `Report`, `TranscriptName`). The lemmas state
the properties of those functions.

Two facts about the code that a reader might not expect:
- `transcribe_audio` and `transcribe_with_options` replace an unsupported
  language code by `nl-NL` and do not reject it
  (modules/transcriber.py:38-40, 128-130), although the docstring of
  `transcribe_audio` lists a `ValueError` for an unsupported language.
- `modules/recorder.py` holds only placeholders.

## Model

| member | source | states |
|---|---|---|
| `Languages.SupportedLanguages` | modules/transcriber.py:243-264 | The table's keys are exactly the thirteen listed codes, and `nl-NL` is in it, named "Nederlands". |
| `Languages.SupportedCount` | modules/transcriber.py:250-264 | The table has exactly thirteen entries, with no code repeated. |
| `Languages.NormaliseLanguage` | modules/transcriber.py:127-130 | The effective language is always a key of the table. A supported code passes through unchanged; any other code becomes `nl-NL`. |
| `Languages.NormaliseIdempotent` | modules/transcriber.py:36-40 | Normalising an already normalised language changes nothing. |
| `Languages.DutchPrefixOnlyDutch` | modules/transcriber.py:168 | Among the supported languages, a code starts with "nl" exactly when it is `nl-NL`. |
| `Strings.Lower` | modules/transcriber.py:49 | Lower-casing keeps the length and folds each character on its own. |
| `Strings.LowerEndsWithTail` | modules/transcriber.py:229 | `s.lower().endswith(x)` holds exactly when the last len(x) characters of `s`, lower-cased, are `x`. |
| `Transcriber.IsWavTail` | modules/transcriber.py:154 | A path counts as WAV exactly when its last four characters, lower-cased, are ".wav". |
| `Transcriber.WavInAnyCase` | modules/transcriber.py:49-54 | Any stem followed by any letter-case spelling of ".wav" counts as WAV, so it is used without conversion. |
| `Transcriber.ChooseRoute` | modules/transcriber.py:166-181 | Sphinx is reached exactly for engine "sphinx" with a language not starting "nl". The Google fallback is reached exactly for "sphinx" with a language starting "nl". |
| `Transcriber.RouteOfNormalised` | modules/transcriber.py:166-181 | For a normalised language, the fallback happens exactly for "sphinx" with `nl-NL`. Sphinx never receives Dutch, and every engine other than "sphinx" goes to Google. |
| `Transcriber.UnsupportedSphinxFallsBack` | modules/transcriber.py:126-173 | A Sphinx request in an unsupported language is normalised to Dutch and so served by Google as the fallback. |
| `Transcriber.MessageStart` | modules/transcriber.py:195-206 | The four kinds of error message begin with different characters ('K'/'g', 'K'/'d', 'P', 'F'). |
| `Transcriber.ErrorIdentifiesCause` | modules/transcriber.py:147-206 | The error text of a result identifies its cause. Each failure kind gets a message no other kind produces, and no failure message equals the missing-file message. The missing path and the exception's own text can be read back from the message. |
| `Transcriber.ReportIdentifiesOutcome` | modules/transcriber.py:83-99 | `transcribe_audio` returns normally exactly on recognised text or on no speech. Its report identifies the outcome, except that "no speech" looks the same as a recogniser that returned the fixed sentence. |
| `Transcriber.TranscribeAudio` | modules/transcriber.py:18-99 | The language defaults to `nl-NL` when the caller gives none. A missing file raises FileNotFoundError with the path, and only a missing file does. Otherwise the result is the except-clause mapping applied to the outcome of three steps: convert a non-WAV path, read the WAV file, then run Google with the normalised language. |
| `Transcriber.TranscribeWithOptions` | modules/transcriber.py:102-208 | The record keeps its invariant: success exactly when there is no error, and no text on failure. The language is the normalised request and `original_file` is the input. A missing file leaves only `error` set. `converted` is set exactly when a non-WAV file converts. On success the text is what the routed recogniser returned; each failure sets its own message. `engine_used` becomes "google (fallback)" only when the fallback succeeds. Without options the language is `nl-NL` and the engine "google". |
| `Transcriber.TranscriptName` | modules/transcriber.py:229-230 | The stored name ends with ".txt" ignoring case. ".txt" is appended exactly when the lower-cased name does not already end in ".txt"; otherwise the name is unchanged. |
| `Transcriber.TranscriptNameIdempotent` | modules/transcriber.py:229-230 | Applying the `.txt` rule twice equals applying it once. |
| `Transcriber.WavNameGetsTxt` | modules/transcriber.py:229-230 | A WAV path in any letter case always gets ".txt" appended ("opname.WAV" becomes "opname.WAV.txt"). |
| `Transcriber.SaveTranscription` | modules/transcriber.py:211-240 | The store receives the text and the `.txt`-corrected name. Its path is returned, and its failure is raised as an Exception prefixed "Kon transcriptie niet opslaan: ". |
| `WebNaming.ReplaceWavWithTxt` | modules/web_interface.py:83 | Replacing every ".wav" by ".txt" keeps the length of the name. |
| `WebNaming.ReplaceEndsWithTxt` | modules/web_interface.py:83 | A path ending in ".wav" yields a name ending in ".txt". The leftmost scan cannot miss the final ".wav", because ".wav" does not overlap itself. |
| `WebNaming.TranscriptNameOfWav` | modules/web_interface.py:83-84 | For an audio path ending in ".wav", `save_transcription` keeps the route's name unchanged, so no second ".txt" is added. |

## Left out

- `modules/recorder.py`: all four functions are placeholders (a fixed
  one-device list, `True`, empty bytes, a `downloads/` prefix). The capture
  session, worker thread and WAV assembly do not exist in the code. They are also audio-hardware and concurrency code.
- `modules/file_handler.py`: `get_download_folder` is file-system I/O, and
  `save_file` and `load_file` are placeholders. `save_file` is a parameter of
  `SaveTranscription`.
- `convert_audio_to_wav` and `SUPPORTED_AUDIO_EXTENSIONS` are imported from
  `modules/file_handler.py`, which does not define them. As written, importing
  the transcriber would fail. The model assumes a converter exists and takes
  it as `World.convert`, which may fail with any `Failure`.
  `get_supported_audio_formats` is not modelled because its list does not
  exist.
- The speech library (`Recognizer`, `AudioFile`, `record`, `recognize_google`,
  `recognize_sphinx`) is a foreign and network call. It appears only through
  its outcomes: `World.record` for opening and reading the WAV file, and
  `World.google` and `World.sphinx` for recognising the audio.
- The recogniser's thresholds and the `confidence` field (always 0.0) are
  numeric settings with no effect on any decision. The result record has no
  `confidence` field.
- Deleting the temporary WAV file is file-system I/O whose failures are
  swallowed. Logging has no effect on results.
- Option values are modelled as strings. Non-string option values are
  outside the model. An unhashable language value (a list, a dictionary)
  makes the membership test at modules/transcriber.py:128, which lies
  outside the try block, raise `TypeError` instead of returning a record.
- `Strings.Lower`: folds only the ASCII letters A-Z, where Python's
  `str.lower` folds every Unicode letter and lengthens a few. The suffix
  tests agree with Python on paths whose characters are ASCII.
- `modules/web_interface.py` and `app.py` are route wiring. Only the
  `.wav` → `.txt` replacement of the transcribe route is modelled, as
  `WebNaming.ReplaceWavWithTxt`.
- `WebNaming.ReplaceWavWithTxt`: its contract states only that the length is
  kept. Its other properties are in `ReplaceEndsWithTxt` and
  `TranscriptNameOfWav`.
