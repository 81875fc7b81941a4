/** utils/audio.py: a spoken problem is transcribed by the local speech model, rewritten from
    spoken phrases into math symbols, and sent to review when the transcription is unsure. */
module Audio {
  import opened Json
  import opened Text

  /** ASR_CONFIDENCE_THRESHOLD's default (config.py). */
  const DefaultAsrThreshold: real := 0.7

  /** `normalize_math_speech`'s table, in its listed order. */
  const SourceReplacements: seq<(string, string)> := [
    ("square root of", "sqrt("),
    ("squared", "^2"),
    ("cubed", "^3"),
    ("raised to the power of", "^"),
    ("raised to", "^"),
    ("divided by", "/"),
    ("multiplied by", "*"),
    ("times", "*"),
    ("plus", "+"),
    ("minus", "-"),
    ("equals", "="),
    ("pi", "\U{03C0}"),
    ("infinity", "\U{221E}"),
    ("log base", "log_"),
    ("natural log", "ln"),
    ("sine of", "sin("),
    ("cosine of", "cos("),
    ("tangent of", "tan(")]

  /** The same table with "cosine of" ahead of "sine of", which it contains (see `CosineShadowed`
      and `CorrectedTable`). */
  const Replacements: seq<(string, string)> := [
    ("square root of", "sqrt("),
    ("squared", "^2"),
    ("cubed", "^3"),
    ("raised to the power of", "^"),
    ("raised to", "^"),
    ("divided by", "/"),
    ("multiplied by", "*"),
    ("times", "*"),
    ("plus", "+"),
    ("minus", "-"),
    ("equals", "="),
    ("pi", "\U{03C0}"),
    ("infinity", "\U{221E}"),
    ("log base", "log_"),
    ("natural log", "ln"),
    ("cosine of", "cos("),
    ("sine of", "sin("),
    ("tangent of", "tan(")]

  /** The text after every entry of the table, in order, has replaced all of its phrase. */
  function ApplyTable(text: string, table: seq<(string, string)>): string
  {
    if table == [] then text
    else
      var last := table[|table| - 1];
      ReplaceAll(ApplyTable(text, table[..|table| - 1]), last.0, last.1)
  }

  /** What `normalize_math_speech` computes with the given table: lower-case, then the table. */
  function NormalizeWith(text: string, table: seq<(string, string)>): string
  {
    ApplyTable(Lower(text), table)
  }

  lemma TableStep(text: string, table: seq<(string, string)>, i: nat)
    requires i < |table|
    ensures ApplyTable(text, table[..i + 1])
         == ReplaceAll(ApplyTable(text, table[..i]), table[i].0, table[i].1)
  {
    assert table[..i + 1][..i] == table[..i];
  }

  /** Entry `i` of either table rewrites the text so far into the pieces between occurrences
      of its phrase, joined by its symbol: every occurrence is replaced. */
  lemma TableEntryReplacesEvery(text: string, t: seq<(string, string)>, i: nat)
    requires t == SourceReplacements || t == Replacements
    requires i < |t|
    ensures ApplyTable(text, t[..i + 1]) == Join(t[i].1, SplitOn(ApplyTable(text, t[..i]), t[i].0))
  {
    PhrasesAtLeastTwo(t);
    TableStep(text, t, i);
    ReplaceAllIsJoinOfSplit(ApplyTable(text, t[..i]), t[i].0, t[i].1);
  }

  /** Entries `i` up to `j` whose phrases do not occur in the current text leave it unchanged. */
  lemma {:induction false} ApplyTableAbsentFrom(text: string, table: seq<(string, string)>, i: nat, j: nat,
                                                current: string)
    requires i <= j <= |table|
    requires ApplyTable(text, table[..i]) == current
    requires forall k :: i <= k < j ==> !Occurs(current, table[k].0)
    ensures ApplyTable(text, table[..j]) == current
    decreases j
  {
    if i < j {
      ApplyTableAbsentFrom(text, table, i, j - 1, current);
      TableStep(text, table, j - 1);
      ReplaceAllAbsent(current, table[j - 1].0, table[j - 1].1);
    }
  }

  /** A text in which no phrase of the table occurs comes out as it went in. */
  lemma ApplyTableAbsent(text: string, table: seq<(string, string)>)
    requires forall i :: 0 <= i < |table| ==> !Occurs(text, table[i].0)
    ensures ApplyTable(text, table) == text
  {
    assert table[..0] == [];
    ApplyTableAbsentFrom(text, table, 0, |table|, text);
    assert table[..|table|] == table;
  }

  /** With any table (the one as written and the corrected one included), lower-cased text
      that contains none of the phrases is returned as it is. */
  lemma NormalizePlainText(text: string, t: seq<(string, string)>)
    requires forall i :: 0 <= i < |t| ==> !Occurs(Lower(text), t[i].0)
    ensures NormalizeWith(text, t) == Lower(text)
  {
    ApplyTableAbsent(Lower(text), t);
  }

  /** With any table, the input is lower-cased before any replacement, so case never matters. */
  lemma NormalizeIgnoresCase(text: string, t: seq<(string, string)>)
    ensures NormalizeWith(Lower(text), t) == NormalizeWith(text, t)
  {
    LowerIdempotent(text);
  }

  lemma LowerKeeps(s: string)
    requires forall k :: 0 <= k < |s| ==> !('A' <= s[k] <= 'Z')
    ensures Lower(s) == s
  {
  }

  /** The first fifteen entries are the same in both tables. */
  lemma CorrectedTable()
    ensures |Replacements| == |SourceReplacements| == 18
    ensures Replacements[..15] == SourceReplacements[..15]
    ensures Replacements[15] == SourceReplacements[16] && Replacements[16] == SourceReplacements[15]
    ensures Replacements[17] == SourceReplacements[17]
  {
  }

  /** None of the first fifteen phrases occurs in a text lacking the letters q, u, r, d, m, t,
      p, l and a: each phrase has one of them. */
  lemma EarlyPhraseAbsent(s: string, k: nat)
    requires k < 15
    requires 'q' !in s && 'u' !in s && 'r' !in s && 'd' !in s && 'm' !in s
    requires 't' !in s && 'p' !in s && 'l' !in s && 'a' !in s
    ensures !Occurs(s, SourceReplacements[k].0)
  {
    var c := if k in {0, 1, 10} then 'q' else if k == 2 then 'u' else if k in {3, 4} then 'r'
      else if k == 5 then 'd' else if k in {6, 9} then 'm' else if k in {7, 12} then 't'
      else if k in {8, 11} then 'p' else if k == 13 then 'l' else 'a';
    assert c in SourceReplacements[k].0;
    MissingCharAbsent(s, SourceReplacements[k].0, c);
  }

  /** Such a text passes the first fifteen entries of either table unchanged. */
  lemma EarlyPhrasesKeep(s: string, t: seq<(string, string)>)
    requires t == SourceReplacements || t == Replacements
    requires 'q' !in s && 'u' !in s && 'r' !in s && 'd' !in s && 'm' !in s
    requires 't' !in s && 'p' !in s && 'l' !in s && 'a' !in s
    ensures |t| == 18 && ApplyTable(s, t[..15]) == s
  {
    CorrectedTable();
    forall k | 0 <= k < 15
      ensures !Occurs(s, t[k].0)
    {
      assert t[k] == t[..15][k] == SourceReplacements[..15][k];
      EarlyPhraseAbsent(s, k);
    }
    assert t[..0] == [];
    ApplyTableAbsentFrom(s, t, 0, 15, s);
  }

  /** Every phrase of either table has at least two characters. */
  lemma PhrasesAtLeastTwo(t: seq<(string, string)>)
    requires t == SourceReplacements || t == Replacements
    ensures forall k :: 0 <= k < |t| ==> |t[k].0| >= 2
  {
    CorrectedTable();
  }

  /** A text shorter than the last two phrases passes the last two entries unchanged. */
  lemma LastTwoKept(s: string, t: seq<(string, string)>, current: string)
    requires |t| == 18 && ApplyTable(s, t[..16]) == current
    requires |current| < |t[16].0| && |current| < |t[17].0|
    ensures ApplyTable(s, t) == current
  {
    ShorterAbsent(current, t[16].0);
    ShorterAbsent(current, t[17].0);
    ApplyTableAbsentFrom(s, t, 16, 18, current);
    assert t[..18] == t;
  }

  /** In either table "raised to the power of" comes before "raised to", so the whole phrase
      becomes one "^". */
  lemma PowerPhraseIsOneCaret(t: seq<(string, string)>)
    requires t == SourceReplacements || t == Replacements
    ensures NormalizeWith("raised to the power of", t) == "^"
  {
    PowerPhraseFacts(t);
    PhrasesAtLeastTwo(t);
    WholeEntryFourth("raised to the power of", t);
  }

  /** The phrase is already lower-case, is the fourth entry of either table, and lacks the 'q'
      of the first two phrases and the 'c' of the third. */
  lemma PowerPhraseFacts(t: seq<(string, string)>)
    requires t == SourceReplacements || t == Replacements
    ensures Lower("raised to the power of") == "raised to the power of"
    ensures |t| == 18 && t[3] == ("raised to the power of", "^")
    ensures 'q' in t[0].0 && 'q' in t[1].0 && 'c' in t[2].0
    ensures 'q' !in "raised to the power of" && 'c' !in "raised to the power of"
  {
    LowerKeeps("raised to the power of");
  }

  /** A text without 'q' or 'c' that is the fourth entry's phrase comes out as that entry's
      symbol, when the first three phrases have a 'q' or a 'c' and the symbol is shorter than
      every later phrase. */
  lemma WholeEntryFourth(s: string, t: seq<(string, string)>)
    requires |t| == 18 && t[3].0 == s && s != [] && |t[3].1| <= 1
    requires 'q' in t[0].0 && 'q' in t[1].0 && 'c' in t[2].0 && 'q' !in s && 'c' !in s
    requires forall k :: 4 <= k < |t| ==> |t[k].0| >= 2
    ensures ApplyTable(s, t) == t[3].1
  {
    MissingCharAbsent(s, t[0].0, 'q');
    MissingCharAbsent(s, t[1].0, 'q');
    MissingCharAbsent(s, t[2].0, 'c');
    assert t[..0] == [];
    ApplyTableAbsentFrom(s, t, 0, 3, s);
    TableStep(s, t, 3);
    ReplaceWhole(s, t[3].1);
    forall k | 4 <= k < |t|
      ensures !Occurs(t[3].1, t[k].0)
    {
      ShorterAbsent(t[3].1, t[k].0);
    }
    ApplyTableAbsentFrom(s, t, 4, 18, t[3].1);
    assert t[..18] == t;
  }

  /** As written, "sine of" is replaced first and eats the tail of "cosine of", so the
      "cosine of" entry never applies: "cosine of" comes out as "cosin(". */
  lemma CosineShadowed()
    ensures NormalizeWith("cosine of", SourceReplacements) == "cosin("
  {
    LowerKeeps("cosine of");
    SineEntryShadows();
    LastTwoKept("cosine of", SourceReplacements, "cosin(");
  }

  /** Through the "sine of" entry of the table as written, "cosine of" has become "cosin(". */
  lemma SineEntryShadows()
    ensures ApplyTable("cosine of", SourceReplacements[..16]) == "cosin("
  {
    EarlyPhrasesKeep("cosine of", SourceReplacements);
    CosineSplits();
    assert SourceReplacements[15] == ("sine of", "sin(");
    EntryAfterTwo("cosine of", SourceReplacements, 'c', 'o');
  }

  lemma CosineSplits()
    ensures "cosine of" == ['c', 'o'] + "sine of" && ['c', 'o'] + "sin(" == "cosin("
  {
  }

  /** A text that passed the first fifteen entries unchanged and is two characters that cannot
      start the sixteenth phrase followed by that phrase becomes those two characters followed by
      the entry's symbol. */
  lemma EntryAfterTwo(s: string, t: seq<(string, string)>, a: char, b: char)
    requires |t| == 18 && ApplyTable(s, t[..15]) == s
    requires t[15].0 != [] && s == [a, b] + t[15].0 && t[15].0[0] != a && t[15].0[0] != b
    ensures ApplyTable(s, t[..16]) == [a, b] + t[15].1
  {
    var pat, rep := t[15].0, t[15].1;
    TableStep(s, t, 15);
    ReplaceWhole(pat, rep);
    ReplaceAllCons(b, pat, pat, rep);
    assert [a, b] + pat == [a] + ([b] + pat);
    ReplaceAllCons(a, [b] + pat, pat, rep);
  }

  /** With "cosine of" ahead of "sine of", "cosine of" becomes "cos(" as its entry says. */
  lemma CosineNormalized()
    ensures NormalizeWith("cosine of", Replacements) == "cos("
  {
    LowerKeeps("cosine of");
    CosineEntryApplies();
    LastTwoKept("cosine of", Replacements, "cos(");
  }

  /** Through the "cosine of" entry of the corrected table, "cosine of" has become "cos(". */
  lemma CosineEntryApplies()
    ensures ApplyTable("cosine of", Replacements[..16]) == "cos("
  {
    EarlyPhrasesKeep("cosine of", Replacements);
    assert Replacements[15] == ("cosine of", "cos(");
    WholeSixteenth("cosine of", Replacements);
  }

  /** A text that passed the first fifteen entries unchanged and is the sixteenth phrase becomes
      that entry's symbol. */
  lemma WholeSixteenth(s: string, t: seq<(string, string)>)
    requires |t| == 18 && ApplyTable(s, t[..15]) == s && s == t[15].0 && s != []
    ensures ApplyTable(s, t[..16]) == t[15].1
  {
    TableStep(s, t, 15);
    ReplaceWhole(s, t[15].1);
  }

  /** `normalize_math_speech`, with the corrected table. */
  method NormalizeMathSpeech(text: string) returns (result: string)
    ensures result == NormalizeWith(text, Replacements)
  {
    result := Lower(text);
    for i := 0 to |Replacements|
      invariant result == ApplyTable(Lower(text), Replacements[..i])
    {
      TableStep(Lower(text), Replacements, i);
      var (phrase, symbol) := Replacements[i];
      result := ReplaceAll(result, phrase, symbol);
    }
    assert Replacements[..|Replacements|] == Replacements;
  }

  // ----- transcription -----

  /** What the speech model's `transcribe` hands back: the text (`None` when missing) and each
      segment's `avg_logprob` (`None` when missing). */
  datatype Transcript = Transcript(text: Option<string>, segments: seq<Option<real>>)

  /** A run of the local speech model: a transcript, the ImportError raised when the model is
      not installed, or any other exception, each with its message. */
  datatype WhisperRun = Transcribed(t: Transcript) | ImportFailed(msg: string) | Failed(msg: string)

  function LogProb(s: Option<real>): real
  {
    if s.Some? then s.value else -1.0
  }

  function SumLogProbs(segments: seq<Option<real>>): real
  {
    if segments == [] then 0.0
    else SumLogProbs(segments[..|segments| - 1]) + LogProb(segments[|segments| - 1])
  }

  /** `max(0.0, min(1.0, x))`. */
  function Clamp01(x: real): real
  {
    var m := if x < 1.0 then x else 1.0;
    if 0.0 < m then m else 0.0
  }

  /** The clamp keeps a value of [0, 1] and otherwise gives the nearer end. */
  lemma Clamp01Properties(x: real)
    ensures 0.0 <= Clamp01(x) <= 1.0
    ensures Clamp01(x) == (if x < 0.0 then 0.0 else if x > 1.0 then 1.0 else x)
  {
  }

  /** The mean `avg_logprob` of the segments. */
  function MeanLogProb(segments: seq<Option<real>>): real
    requires segments != []
  {
    SumLogProbs(segments) / (|segments| as real)
  }

  /** The confidence of a transcript. */
  function TranscriptConfidence(t: Transcript): real
  {
    var text := Strip(if t.text.Some? then t.text.value else "");
    if t.segments != [] then Clamp01(MeanLogProb(t.segments) + 1.0)
    else if text != "" then 0.6
    else 0.0
  }

  /** `transcribe_with_whisper_local`. */
  function TranscribeWithWhisper(run: WhisperRun): (string, real)
  {
    match run
    case Transcribed(t) => (Strip(if t.text.Some? then t.text.value else ""), TranscriptConfidence(t))
    case ImportFailed(msg) => (msg, 0.0)
    case Failed(msg) => ("Whisper error: " + msg, 0.0)
  }

  lemma {:induction false} SumOfMissing(segments: seq<Option<real>>)
    requires forall i :: 0 <= i < |segments| ==> segments[i].None?
    ensures SumLogProbs(segments) == -(|segments| as real)
    decreases |segments|
  {
    if segments != [] {
      var init := segments[..|segments| - 1];
      assert forall i :: 0 <= i < |init| ==> init[i] == segments[i];
      SumOfMissing(init);
    }
  }

  /** Segments that all lack a log-probability have mean -1.0. */
  lemma MeanOfMissing(segments: seq<Option<real>>)
    requires segments != [] && forall i :: 0 <= i < |segments| ==> segments[i].None?
    ensures MeanLogProb(segments) == -1.0
  {
    SumOfMissing(segments);
    var n := |segments| as real;
    assert -n / n == -1.0;
  }

  /** The confidence is the mean log-probability plus one, clamped to [0, 1], when there are
      segments, a missing log-probability counting as -1.0 (so segments all without one give
      0.0); without segments it is 0.6 for a non-blank text and 0.0 otherwise. */
  lemma TranscriptConfidenceProperties(t: Transcript)
    ensures 0.0 <= TranscriptConfidence(t) <= 1.0
    ensures t.segments != [] ==>
      var m := MeanLogProb(t.segments) + 1.0;
      TranscriptConfidence(t) == (if m < 0.0 then 0.0 else if m > 1.0 then 1.0 else m)
    ensures t.segments != [] && (forall i :: 0 <= i < |t.segments| ==> t.segments[i].None?) ==>
      TranscriptConfidence(t) == 0.0
    ensures t.segments == [] ==>
      TranscriptConfidence(t) == (if Strip(if t.text.Some? then t.text.value else "") != "" then 0.6 else 0.0)
  {
    if t.segments != [] {
      Clamp01Properties(MeanLogProb(t.segments) + 1.0);
      if forall i :: 0 <= i < |t.segments| ==> t.segments[i].None? {
        MeanOfMissing(t.segments);
      }
    }
  }

  /** The unavailable-transcription message of `transcribe_audio`. */
  const AudioUnavailable: string :=
    "Audio transcription not available. Install with: pip install openai-whisper  (also needs ffmpeg). You can type the problem manually instead."

  /** `transcribe_audio`: the transcript (an error message included) is normalized, and review
      is needed below the threshold. */
  function TranscribeAudio(whisperAvailable: bool, run: WhisperRun, threshold: real := DefaultAsrThreshold)
    : (r: (string, real, bool))
  {
    if !whisperAvailable then (AudioUnavailable, 0.0, true)
    else
      var (text, conf) := TranscribeWithWhisper(run);
      (NormalizeWith(text, Replacements), conf, conf < threshold)
  }

  /** Review is needed exactly when the confidence is below the threshold; without the speech
      model the result is the fixed message with confidence 0.0 and review; a failed run has
      confidence 0.0. */
  lemma TranscribeAudioProperties(whisperAvailable: bool, run: WhisperRun, threshold: real)
    ensures var r := TranscribeAudio(whisperAvailable, run, threshold);
      && 0.0 <= r.1 <= 1.0
      && (!whisperAvailable ==> r == (AudioUnavailable, 0.0, true))
      && (whisperAvailable ==> (r.2 <==> r.1 < threshold))
      && (whisperAvailable && !run.Transcribed? ==> r.1 == 0.0)
      && (whisperAvailable && run.Transcribed? ==> r.1 == TranscriptConfidence(run.t))
  {
    if run.Transcribed? {
      TranscriptConfidenceProperties(run.t);
    }
  }
}
