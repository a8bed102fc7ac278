/** The decision logic of the transcriber: which language and engine a
    request uses, whether the audio is converted to WAV first, how the
    result record is filled in, how failures of the speech recogniser are
    reported, and how the transcript's file name is formed.

    The file system, the audio converter and the two speech recognisers are
    not modelled; a `World` value stands for what they answer to this one
    request. */
module Transcriber {
  import opened Strings
  import opened Languages

  datatype Option<T> = None | Some(value: T)

  datatype Result<T, E> = Ok(value: T) | Err(error: E)

  /** What can go wrong inside the try block of a transcription, by the
      exception class that reaches the except clauses. */
  datatype Failure =
    | NoSpeech                            // sr.UnknownValueError
    | ServiceUnreachable(detail: string)  // sr.RequestError
    | BadAudio(detail: string)            // ValueError (validation or conversion)
    | OtherError(detail: string)          // any other Exception

  /** The exception a transcriber function raises to its caller. */
  datatype Raised =
    | FileNotFound(message: string)  // FileNotFoundError
    | InvalidValue(message: string)  // ValueError
    | GeneralError(message: string)  // Exception

  /** The samples read from a WAV file. */
  type AudioData = seq<int>

  /** The answers of the collaborators to one request:
      `fileExists` is os.path.exists; `convert` is convert_audio_to_wav,
      giving the path of the WAV copy; `record` opens a WAV file with
      sr.AudioFile and reads it with recognizer.record; `google` is
      recognize_google with the given language; `sphinx` is
      recognize_sphinx. */
  datatype World = World(
    fileExists: string -> bool,
    convert: string -> Result<string, Failure>,
    record: string -> Result<AudioData, Failure>,
    google: (AudioData, string) -> Result<string, Failure>,
    sphinx: AudioData -> Result<string, Failure>)

  /** The options dictionary of transcribe_with_options; an absent key is
      None. */
  datatype Options = Options(language: Option<string>, engine: Option<string>)

  /** `options=None`, which the source replaces by an empty dictionary. */
  const NoOptions := Options(None, None)

  /** The result dictionary of transcribe_with_options. */
  datatype TranscriptionResult = TranscriptionResult(
    success: bool,
    text: string,
    error: Option<string>,
    engineUsed: string,
    language: string,
    originalFile: string,
    converted: bool)

  const DefaultEngine: string := "google"
  const SphinxEngine: string := "sphinx"
  const FallbackEngine: string := "google (fallback)"

  /** What transcribe_audio returns, as if it were the transcript, when no
      speech is recognised. */
  const NoSpeechSentence: string := "Kon geen spraak herkennen in de opname."
  /** The error transcribe_with_options records when no speech is recognised
      (the same words without the full stop). */
  const NoSpeechError: string := "Kon geen spraak herkennen in de opname"
  const MissingFilePrefix: string := "Audiobestand niet gevonden: "
  // written in two pieces: the verifier cannot show what the one-piece literal
  // starts with, which MessageStart needs
  const ServicePrefix: string := "Kon de spraakherkenningsdienst" + " niet bereiken: "
  const AudioPrefix: string := "Probleem met audiobestand: "
  const TranscriptionPrefix: string := "Fout tijdens transcriptie: "
  const SavePrefix: string := "Kon transcriptie niet opslaan: "

  // ---------------------------------------------------------------------
  // The WAV test

  /** A path is taken to be a WAV file when it ends in ".wav" in any letter
      case. */
  predicate IsWav(path: string) {
    LowerEndsWith(path, ".wav")
  }

  /** The WAV test looks at the last four characters only: a path is WAV
      exactly when those are ".wav" once lower-cased. */
  lemma IsWavTail(path: string)
    ensures IsWav(path) <==> |path| >= 4 && Lower(path[|path| - 4..]) == ".wav"
  {
    LowerEndsWithTail(path, ".wav");
  }

  /** Every spelling of the extension (".wav", ".WAV", ".Wav", ...) marks a
      WAV file, whatever the stem. */
  lemma WavInAnyCase(stem: string, extension: string)
    requires Lower(extension) == ".wav"
    ensures IsWav(stem + extension)
  {
    LowerEndsWithAppend(stem, extension, ".wav");
  }

  // ---------------------------------------------------------------------
  // Engine routing

  /** The recogniser a request reaches. */
  datatype Route = Google | Sphinx | GoogleFallback

  /** The engine branch of transcribe_with_options: "sphinx" uses PocketSphinx
      unless the language starts with "nl", for which Google is used instead;
      every other engine name uses Google. */
  function ChooseRoute(engine: string, language: string): (r: Route)
    ensures r == Sphinx <==> engine == SphinxEngine && !StartsWith(language, "nl")
    ensures r == GoogleFallback <==> engine == SphinxEngine && StartsWith(language, "nl")
  {
    if engine == SphinxEngine then
      if StartsWith(language, "nl") then GoogleFallback else Sphinx
    else Google
  }

  /** For the languages the transcriber actually uses, routing depends on the
      language only through whether it is Dutch: the fallback to Google
      happens exactly for Sphinx with Dutch, and PocketSphinx never receives
      a Dutch request. */
  lemma RouteOfNormalised(engine: string, requested: string)
    ensures var language := NormaliseLanguage(requested);
      && (ChooseRoute(engine, language) == GoogleFallback <==> engine == SphinxEngine && language == Dutch)
      && (ChooseRoute(engine, language) == Sphinx <==> engine == SphinxEngine && language != Dutch)
      && (ChooseRoute(engine, language) == Google <==> engine != SphinxEngine)
  {
    DutchPrefixOnlyDutch(NormaliseLanguage(requested));
  }

  /** A Sphinx request in a language outside the table is served by Google
      in Dutch. */
  lemma UnsupportedSphinxFallsBack(requested: string)
    requires !Supported(requested)
    ensures ChooseRoute(SphinxEngine, NormaliseLanguage(requested)) == GoogleFallback
  {
    RouteOfNormalised(SphinxEngine, requested);
  }

  /** The outcome of reading the given WAV file and passing the audio to the
      recogniser a route selects; a failure to read ends the attempt before
      any recogniser is called. */
  function Recognise(world: World, route: Route, wavFile: string, language: string): Result<string, Failure> {
    match world.record(wavFile)
    case Err(f) => Err(f)
    case Ok(audio) =>
      if route == Sphinx then world.sphinx(audio) else world.google(audio, language)
  }

  /** The outcome of the try block of a transcription of an existing file:
      a non-WAV file is first converted, and a failed conversion ends the
      attempt; the WAV file is then recognised along the given route. */
  function TryTranscribe(audioFile: string, route: Route, language: string, world: World): Result<string, Failure> {
    if IsWav(audioFile) then Recognise(world, route, audioFile, language)
    else match world.convert(audioFile)
      case Ok(wavFile) => Recognise(world, route, wavFile, language)
      case Err(f) => Err(f)
  }

  // ---------------------------------------------------------------------
  // Messages

  function MissingFileMessage(audioFile: string): string {
    MissingFilePrefix + audioFile
  }

  /** The error transcribe_with_options records for each failure. */
  function ErrorMessage(f: Failure): string {
    match f
    case NoSpeech => NoSpeechError
    case ServiceUnreachable(d) => ServicePrefix + d
    case BadAudio(d) => AudioPrefix + d
    case OtherError(d) => TranscriptionPrefix + d
  }

  /** Removing a common prefix. */
  lemma PrefixCancel(p: string, a: string, b: string)
    requires p + a == p + b
    ensures a == b
  {
    assert a == (p + a)[|p|..];
  }

  /** The first character of each kind of error message. */
  function MessageInitial(f: Failure): char {
    match f
    case NoSpeech => 'K'
    case ServiceUnreachable(_) => 'K'
    case BadAudio(_) => 'P'
    case OtherError(_) => 'F'
  }

  /** Error messages of different kinds differ in their first or their fifth
      character ("Kon geen ..." and "Kon de ..." share the first four). */
  lemma MessageStart(f: Failure)
    ensures |ErrorMessage(f)| >= 5 && ErrorMessage(f)[0] == MessageInitial(f)
    ensures f.NoSpeech? ==> ErrorMessage(f)[4] == 'g'
    ensures f.ServiceUnreachable? ==> ErrorMessage(f)[4] == 'd'
  {
    match f
    case NoSpeech =>
    case ServiceUnreachable(d) =>
      assert ErrorMessage(f)[0] == ServicePrefix[0] && ErrorMessage(f)[4] == ServicePrefix[4];
    case BadAudio(d) => assert ErrorMessage(f)[0] == AudioPrefix[0];
    case OtherError(d) => assert ErrorMessage(f)[0] == TranscriptionPrefix[0];
  }

  /** The error of a result names its cause: a missing file and each kind of
      failure get messages no other cause produces, and the message still
      carries the missing path or the exception's own text. */
  lemma ErrorIdentifiesCause(f: Failure, g: Failure, p: string, q: string)
    ensures ErrorMessage(f) == ErrorMessage(g) ==> f == g
    ensures MissingFileMessage(p) != ErrorMessage(f)
    ensures MissingFileMessage(p) == MissingFileMessage(q) ==> p == q
  {
    if MissingFileMessage(p) == MissingFileMessage(q) {
      PrefixCancel(MissingFilePrefix, p, q);
    }
    MessageStart(f);
    MessageStart(g);
    assert MissingFileMessage(p)[0] == 'A';
    if ErrorMessage(f) == ErrorMessage(g) {
      assert f.NoSpeech? == g.NoSpeech?;
      match f
      case NoSpeech =>
      case ServiceUnreachable(d) => PrefixCancel(ServicePrefix, d, g.detail);
      case BadAudio(d) => PrefixCancel(AudioPrefix, d, g.detail);
      case OtherError(d) => PrefixCancel(TranscriptionPrefix, d, g.detail);
    }
  }

  /** The except clauses of transcribe_audio: a recognised text is returned;
      no speech returns a fixed sentence in place of a transcript; the other
      failures are raised again with a prefix naming what went wrong. */
  function Report(outcome: Result<string, Failure>): Result<string, Raised> {
    match outcome
    case Ok(text) => Ok(text)
    case Err(NoSpeech) => Ok(NoSpeechSentence)
    case Err(ServiceUnreachable(d)) => Err(GeneralError(ServicePrefix + d))
    case Err(BadAudio(d)) => Err(InvalidValue(AudioPrefix + d))
    case Err(OtherError(d)) => Err(GeneralError(TranscriptionPrefix + d))
  }

  /** What transcribe_audio reports determines the outcome of the attempt,
      with one exception: a caller cannot tell "no speech" from a recogniser
      that returned the fixed sentence itself. */
  lemma ReportIdentifiesOutcome(a: Result<string, Failure>, b: Result<string, Failure>)
    ensures Report(a) == Report(b) <==>
      || a == b
      || (a == Err(NoSpeech) && b == Ok(NoSpeechSentence))
      || (a == Ok(NoSpeechSentence) && b == Err(NoSpeech))
    ensures Report(a).Ok? <==> a.Ok? || a == Err(NoSpeech)
  {
    if Report(a) == Report(b) && a.Err? && b.Err? {
      var m, n := ErrorMessage(a.error), ErrorMessage(b.error);
      match Report(a)
      case Ok(_) =>
      case Err(e) =>
        // Report's message is ErrorMessage's for every failure that raises
        assert e.message == m && e.message == n;
        ErrorIdentifiesCause(a.error, b.error, "", "");
    }
  }

  // ---------------------------------------------------------------------
  // transcribe_audio

  /** transcribe_audio: normalises the language, raises FileNotFoundError for
      a missing file, converts a non-WAV file, recognises with Google, and
      reports the outcome through its except clauses. As in the source, the
      language defaults to Dutch when the caller gives none. */
  method TranscribeAudio(audioFile: string, world: World, language: string := Dutch)
    returns (r: Result<string, Raised>)
    ensures !world.fileExists(audioFile) ==> r == Err(FileNotFound(MissingFileMessage(audioFile)))
    ensures world.fileExists(audioFile) ==>
      r == Report(TryTranscribe(audioFile, Google, NormaliseLanguage(language), world))
    ensures r.Err? && r.error.FileNotFound? <==> !world.fileExists(audioFile)
  {
    var lang := language;
    if !Supported(lang) {
      lang := Dutch;
    }
    if !world.fileExists(audioFile) {
      return Err(FileNotFound(MissingFileMessage(audioFile)));
    }
    var wavFile: string;
    if !IsWav(audioFile) {
      var conversion := world.convert(audioFile);
      if conversion.Err? {
        return Report(Err(conversion.error));
      }
      wavFile := conversion.value;
    } else {
      wavFile := audioFile;
    }
    var recorded := world.record(wavFile);
    if recorded.Err? {
      return Report(Err(recorded.error));
    }
    r := Report(world.google(recorded.value, lang));
  }

  // ---------------------------------------------------------------------
  // transcribe_with_options

  function RequestedLanguage(options: Options): string {
    match options.language
    case Some(l) => l
    case None => Dutch
  }

  function RequestedEngine(options: Options): string {
    match options.engine
    case Some(e) => e
    case None => DefaultEngine
  }

  /** The invariant every result record keeps: it reports success exactly
      when it carries no error, a failed transcription has no text, and the
      language is one of the table's. */
  predicate Consistent(result: TranscriptionResult) {
    && (result.success <==> result.error.None?)
    && (!result.success ==> result.text == "")
    && Supported(result.language)
  }

  /** transcribe_with_options: builds the result record with its defaults and
      fills it in step by step; it never raises. */
  method TranscribeWithOptions(audioFile: string, options: Options, world: World)
    returns (result: TranscriptionResult)
    ensures Consistent(result)
    ensures result.language == NormaliseLanguage(RequestedLanguage(options))
    ensures result.originalFile == audioFile
    ensures !world.fileExists(audioFile) ==>
      && result.error == Some(MissingFileMessage(audioFile))
      && result.engineUsed == RequestedEngine(options)
      && !result.converted
    ensures result.converted <==>
      world.fileExists(audioFile) && !IsWav(audioFile) && world.convert(audioFile).Ok?
    ensures world.fileExists(audioFile) ==>
      var outcome := TryTranscribe(audioFile, ChooseRoute(RequestedEngine(options), result.language),
                                   result.language, world);
      && (outcome.Ok? ==> result.success && result.text == outcome.value)
      && (outcome.Err? ==> result.error == Some(ErrorMessage(outcome.error)))
    ensures result.engineUsed ==
      if result.success && ChooseRoute(RequestedEngine(options), result.language) == GoogleFallback
      then FallbackEngine else RequestedEngine(options)
    ensures options == NoOptions ==> result.language == Dutch && result.engineUsed == DefaultEngine
  {
    var language := RequestedLanguage(options);
    var engine := RequestedEngine(options);
    if !Supported(language) {
      language := Dutch;
    }
    result := TranscriptionResult(
      success := false, text := "", error := None, engineUsed := engine,
      language := language, originalFile := audioFile, converted := false);
    if !world.fileExists(audioFile) {
      result := result.(error := Some(MissingFileMessage(audioFile)));
      return;
    }
    // the try block; `failure` is the exception that leaves it, if any
    var failure: Option<Failure> := None;
    var wavFile := audioFile;
    if !IsWav(audioFile) {
      var conversion := world.convert(audioFile);
      match conversion {
        case Ok(converted) =>
          wavFile := converted;
          result := result.(converted := true);
        case Err(f) =>
          failure := Some(f);
      }
    }
    if failure.None? {
      match world.record(wavFile) {
        case Err(f) =>
          failure := Some(f);
        case Ok(audio) =>
          var recognised: Result<string, Failure>;
          if engine == SphinxEngine {
            if StartsWith(language, "nl") {
              recognised := world.google(audio, language);
              if recognised.Ok? {
                result := result.(text := recognised.value, engineUsed := FallbackEngine);
              }
            } else {
              recognised := world.sphinx(audio);
              if recognised.Ok? {
                result := result.(text := recognised.value);
              }
            }
          } else {
            recognised := world.google(audio, language);
            if recognised.Ok? {
              result := result.(text := recognised.value);
            }
          }
          match recognised {
            case Ok(_) => result := result.(success := true);
            case Err(f) => failure := Some(f);
          }
      }
    }
    if failure.Some? {
      result := result.(error := Some(ErrorMessage(failure.value)));
    }
  }

  // ---------------------------------------------------------------------
  // save_transcription

  /** The file name save_transcription stores under: ".txt" is appended
      exactly when the name does not already end in ".txt" in some letter
      case. */
  function TranscriptName(filename: string): (r: string)
    ensures LowerEndsWith(r, ".txt")
    ensures r == filename || r == filename + ".txt"
    ensures r == filename <==> LowerEndsWith(filename, ".txt")
  {
    if LowerEndsWith(filename, ".txt") then filename
    else
      LowerEndsWithAppend(filename, ".txt", ".txt");
      filename + ".txt"
  }

  /** Applying the rule to its own result changes nothing. */
  lemma TranscriptNameIdempotent(filename: string)
    ensures TranscriptName(TranscriptName(filename)) == TranscriptName(filename)
  {
  }

  /** A WAV path in any letter case does not end in ".txt", so the rule
      appends ".txt" to it: "opname.WAV" is stored as "opname.WAV.txt". */
  lemma WavNameGetsTxt(path: string)
    requires IsWav(path)
    ensures TranscriptName(path) == path + ".txt"
  {
  }

  /** save_transcription: fixes the suffix, then hands text and name to the
      file store (`saveFile`, standing for save_file); the store's failure is
      raised again with a prefix. */
  method SaveTranscription(text: string, filename: string,
                           saveFile: (string, string) -> Result<string, string>)
    returns (r: Result<string, Raised>)
    ensures saveFile(text, TranscriptName(filename)).Ok? ==>
      r == Ok(saveFile(text, TranscriptName(filename)).value)
    ensures saveFile(text, TranscriptName(filename)).Err? ==>
      r == Err(GeneralError(SavePrefix + saveFile(text, TranscriptName(filename)).error))
  {
    var name := filename;
    if !LowerEndsWith(name, ".txt") {
      name := name + ".txt";
    }
    var stored := saveFile(text, name);
    match stored {
      case Ok(path) => r := Ok(path);
      case Err(detail) => r := Err(GeneralError(SavePrefix + detail));
    }
  }
}
