/** The transcript name the HTTP transcribe route derives from the audio
    path before it calls save_transcription. */
module WebNaming {
  import opened Strings
  import Transcriber

  /** `audio_file.replace('.wav', '.txt')`: every occurrence, found left to
      right without overlap, case-sensitively. */
  function ReplaceWavWithTxt(s: string): (r: string)
    ensures |r| == |s|
    decreases |s|
  {
    if |s| < 4 then s
    else if s[..4] == ".wav" then ".txt" + ReplaceWavWithTxt(s[4..])
    else [s[0]] + ReplaceWavWithTxt(s[1..])
  }

  /** ".wav" does not overlap itself: a string that starts and ends with it
      and is longer than four characters has at least eight. */
  lemma WavNoOverlap(s: string)
    requires |s| > 4 && s[..4] == ".wav" && EndsWith(s, ".wav")
    ensures |s| >= 8
  {
    var n := |s|;
    assert s[n - 4] == '.' by { assert s[n - 4..][0] == s[n - 4]; }
    // the 'w', 'a' and 'v' of the leading ".wav" cannot be the final '.'
    forall k | 1 <= k < 4 ensures s[k] != '.' {
      assert s[..4][k] == s[k];
    }
  }

  /** A path that ends in ".wav" gets a name that ends in ".txt". */
  lemma {:induction false} ReplaceEndsWithTxt(s: string)
    requires EndsWith(s, ".wav")
    ensures EndsWith(ReplaceWavWithTxt(s), ".txt")
    decreases |s|
  {
    var r := ReplaceWavWithTxt(s);
    if s[..4] == ".wav" {
      if |s| == 4 {
        assert r == ".txt" + ReplaceWavWithTxt([]);
      } else {
        WavNoOverlap(s);
        var rest := s[4..];
        assert rest[|rest| - 4..] == s[|s| - 4..];
        ReplaceEndsWithTxt(rest);
        var t := ReplaceWavWithTxt(rest);
        assert r == ".txt" + t;
        assert r[|r| - 4..] == t[|t| - 4..];
      }
    } else {
      assert |s| > 4;
      var rest := s[1..];
      assert rest[|rest| - 4..] == s[|s| - 4..];
      ReplaceEndsWithTxt(rest);
      var t := ReplaceWavWithTxt(rest);
      assert r == [s[0]] + t;
      assert r[|r| - 4..] == t[|t| - 4..];
    }
  }

  /** For a recording saved as "<name>.wav" the route's ".txt" name already
      satisfies save_transcription's rule, so no second ".txt" is added. */
  lemma TranscriptNameOfWav(audioFile: string)
    requires EndsWith(audioFile, ".wav")
    ensures Transcriber.TranscriptName(ReplaceWavWithTxt(audioFile)) == ReplaceWavWithTxt(audioFile)
  {
    var name := ReplaceWavWithTxt(audioFile);
    ReplaceEndsWithTxt(audioFile);
    LowerEndsWithTail(name, ".txt");
    var tail := name[|name| - 4..];
    assert tail == ".txt";
    assert Lower(tail) == ".txt" by {
      assert Lower(tail)[0] == LowerChar('.');
    }
  }
}
