/** utils/ocr.py: text is read from an image by Tesseract, retried with EasyOCR when the first
    reading is empty or unsure, and sent to review when the final confidence is low. */
module Ocr {
  import opened Text

  /** OCR_CONFIDENCE_THRESHOLD's default (config.py). */
  const DefaultOcrThreshold: real := 0.6

  /** A first reading below this confidence is retried with the second backend. */
  const RetryBelow: real := 0.3

  /** The two columns of pytesseract's `image_to_data` dict that are read: each detected word and
      its confidence, as `int(c)` reads it (-1 for entries that are not words). */
  datatype TesseractData = TesseractData(text: seq<string>, conf: seq<int>)

  /** A Tesseract run: the data, or the exception it raised, with its message. */
  datatype TesseractRun = TesseractRead(data: TesseractData) | TesseractFailed(msg: string)

  /** An EasyOCR run: `readtext`'s (text, confidence) pairs, or the exception it raised. */
  datatype EasyRun = EasyRead(results: seq<(string, real)>) | EasyFailed(msg: string)

  // ----- Tesseract -----

  /** `[w for w, c in zip(text, conf) if int(c) > 0 and w.strip()]`: the pairing stops at the
      shorter column; a kept word keeps its surrounding blanks. */
  function KeptWords(text: seq<string>, conf: seq<int>): seq<string>
    decreases |text|
  {
    if text == [] || conf == [] then []
    else (if conf[0] > 0 && Strip(text[0]) != "" then [text[0]] else []) + KeptWords(text[1..], conf[1..])
  }

  /** A word is kept exactly when some position of both columns holds it with a positive
      confidence and it is not blank; no more words are kept than there are pairs. */
  lemma {:induction false} KeptWordsMembers(text: seq<string>, conf: seq<int>, w: string)
    ensures w in KeptWords(text, conf) <==>
      exists i :: 0 <= i < |text| && i < |conf| && text[i] == w && conf[i] > 0 && Strip(w) != ""
    ensures |KeptWords(text, conf)| <= |text| && |KeptWords(text, conf)| <= |conf|
    decreases |text|
  {
    if text != [] && conf != [] {
      KeptWordsMembers(text[1..], conf[1..], w);
      var head := if conf[0] > 0 && Strip(text[0]) != "" then [text[0]] else [];
      assert KeptWords(text, conf) == head + KeptWords(text[1..], conf[1..]);
      if w in KeptWords(text, conf) && w !in head {
        var i :| 0 <= i < |text[1..]| && i < |conf[1..]| && text[1..][i] == w && conf[1..][i] > 0 && Strip(w) != "";
        assert text[i + 1] == w && conf[i + 1] > 0;
      }
      if exists i :: 0 <= i < |text| && i < |conf| && text[i] == w && conf[i] > 0 && Strip(w) != "" {
        var i :| 0 <= i < |text| && i < |conf| && text[i] == w && conf[i] > 0 && Strip(w) != "";
        if i > 0 {
          assert text[1..][i - 1] == w && conf[1..][i - 1] > 0;
        }
      }
    }
  }

  /** `[int(c) for c in conf if int(c) > 0]`: every confidence of the column, not only those
      paired with a word. */
  function PositiveConfs(conf: seq<int>): seq<int>
  {
    if conf == [] then []
    else (if conf[0] > 0 then [conf[0]] else []) + PositiveConfs(conf[1..])
  }

  function SumInts(xs: seq<int>): int
  {
    if xs == [] then 0 else xs[0] + SumInts(xs[1..])
  }

  /** The kept confidences are exactly the positive entries of the column; their sum is positive
      when there is one, and at most 100 per entry when no entry exceeds 100. */
  lemma {:induction false} PositiveConfsProperties(conf: seq<int>)
    ensures forall c :: c in PositiveConfs(conf) <==> c in conf && c > 0
    ensures |PositiveConfs(conf)| <= |conf|
    ensures PositiveConfs(conf) == [] <==> forall i :: 0 <= i < |conf| ==> conf[i] <= 0
    ensures PositiveConfs(conf) != [] ==> SumInts(PositiveConfs(conf)) > 0
    ensures (forall i :: 0 <= i < |conf| ==> conf[i] <= 100) ==>
      SumInts(PositiveConfs(conf)) <= 100 * |PositiveConfs(conf)|
    decreases |conf|
  {
    if conf != [] {
      PositiveConfsProperties(conf[1..]);
      var rest := PositiveConfs(conf[1..]);
      assert forall i :: 1 <= i < |conf| ==> conf[i] == conf[1..][i - 1];
      assert forall c :: c in conf <==> c == conf[0] || c in conf[1..];
      if conf[0] > 0 {
        assert PositiveConfs(conf) == [conf[0]] + rest;
        assert ([conf[0]] + rest)[1..] == rest;
        assert SumInts(PositiveConfs(conf)) == conf[0] + SumInts(rest);
      } else {
        assert PositiveConfs(conf) == rest;
      }
    }
  }

  /** `sum(confs) / len(confs) / 100.0`. */
  function MeanPercent(confs: seq<int>): real
    requires confs != []
  {
    (SumInts(confs) as real) / (|confs| as real) / 100.0
  }

  /** The confidence of a Tesseract reading: the mean positive confidence as a fraction, or 0.0
      when no entry has a positive confidence. */
  function TesseractConfidence(conf: seq<int>): real
  {
    var confs := PositiveConfs(conf);
    if confs == [] then 0.0 else MeanPercent(confs)
  }

  /** A quotient of a value in (0, hi * n] by n lies in (0, hi]. */
  lemma QuotientBounds(s: real, n: real, hi: real)
    requires n > 0.0 && 0.0 <= s <= hi * n
    ensures 0.0 <= s / n <= hi
    ensures s > 0.0 ==> s / n > 0.0
  {
    var q := s / n;
    assert q * n == s;
  }

  /** The Tesseract confidence is 0.0 exactly when no entry has a positive confidence, positive
      otherwise, and at most 1.0 when no entry exceeds 100. */
  lemma TesseractConfidenceProperties(conf: seq<int>)
    ensures TesseractConfidence(conf) == 0.0 <==> forall i :: 0 <= i < |conf| ==> conf[i] <= 0
    ensures TesseractConfidence(conf) >= 0.0
    ensures (forall i :: 0 <= i < |conf| ==> conf[i] <= 100) ==> TesseractConfidence(conf) <= 1.0
  {
    PositiveConfsProperties(conf);
    var confs := PositiveConfs(conf);
    if confs != [] {
      var s, n := SumInts(confs) as real, |confs| as real;
      if forall i :: 0 <= i < |conf| ==> conf[i] <= 100 {
        QuotientBounds(s, n, 100.0);
        QuotientBounds(s / n, 100.0, 1.0);
      } else {
        QuotientBounds(s, n, s);
        QuotientBounds(s / n, 100.0, s / n);
      }
    }
  }

  /** `ocr_with_tesseract`: nothing without pytesseract or PIL; otherwise the kept words joined
      by single spaces and their confidence, or the error message with confidence 0.0. */
  function TesseractOcr(available: bool, run: TesseractRun): (string, real)
  {
    if !available then ("", 0.0)
    else
      match run
      case TesseractFailed(msg) => ("Tesseract error: " + msg, 0.0)
      case TesseractRead(d) => (Join(" ", KeptWords(d.text, d.conf)), TesseractConfidence(d.conf))
  }

  // ----- EasyOCR -----

  function Texts(results: seq<(string, real)>): (ts: seq<string>)
    ensures |ts| == |results| && forall i :: 0 <= i < |ts| ==> ts[i] == results[i].0
  {
    seq(|results|, i requires 0 <= i < |results| => results[i].0)
  }

  function SumConfs(results: seq<(string, real)>): real
  {
    if results == [] then 0.0 else results[0].1 + SumConfs(results[1..])
  }

  /** `sum(confs) / len(confs)` over the readings' confidences. */
  function MeanConf(results: seq<(string, real)>): real
    requires results != []
  {
    SumConfs(results) / (|results| as real)
  }

  /** Confidences in [0, 1] sum to at most one per reading. */
  lemma {:induction false} SumConfsBounds(results: seq<(string, real)>)
    requires forall i :: 0 <= i < |results| ==> 0.0 <= results[i].1 <= 1.0
    ensures 0.0 <= SumConfs(results) <= |results| as real
    decreases |results|
  {
    if results != [] {
      assert forall i :: 0 <= i < |results[1..]| ==> results[1..][i] == results[i + 1];
      SumConfsBounds(results[1..]);
    }
  }

  /** `ocr_with_easyocr`: nothing without easyocr or when nothing was read; otherwise the texts
      joined by single spaces and their mean confidence, or the error message with 0.0. */
  function EasyOcr(available: bool, run: EasyRun): (string, real)
  {
    if !available then ("", 0.0)
    else
      match run
      case EasyFailed(msg) => ("EasyOCR error: " + msg, 0.0)
      case EasyRead(results) =>
        if results == [] then ("", 0.0) else (Join(" ", Texts(results)), MeanConf(results))
  }

  /** With readings whose confidences lie in [0, 1], the EasyOCR confidence does too. */
  lemma EasyOcrBounds(available: bool, run: EasyRun)
    requires run.EasyRead? ==> forall i :: 0 <= i < |run.results| ==> 0.0 <= run.results[i].1 <= 1.0
    ensures 0.0 <= EasyOcr(available, run).1 <= 1.0
  {
    if available && run.EasyRead? && run.results != [] {
      SumConfsBounds(run.results);
      QuotientBounds(SumConfs(run.results), |run.results| as real, 1.0);
    }
  }

  // ----- backend selection -----

  /** The message `extract_text_from_image` returns when neither backend is installed. */
  const OcrUnavailable: string :=
    "OCR not available. Install pytesseract or easyocr, then retry. You can also type the problem manually below."

  /** The installed libraries: pytesseract, PIL and easyocr. */
  datatype Backends = Backends(tesseract: bool, pil: bool, easyocr: bool)

  /** What `extract_text_from_image` returns: the text, its confidence and whether a person must
      review it. */
  function Extract(b: Backends, first: TesseractRun, second: EasyRun, threshold: real): (string, real, bool)
  {
    if !b.tesseract && !b.easyocr then (OcrUnavailable, 0.0, true)
    else
      var (text1, conf1) := TesseractOcr(b.tesseract && b.pil, first);
      var (text, conf) :=
        if text1 == "" || conf1 < RetryBelow then
          var (text2, conf2) := EasyOcr(b.easyocr, second);
          if conf2 > conf1 then (text2, conf2) else (text1, conf1)
        else (text1, conf1);
      (text, conf, conf < threshold)
  }

  /** Without either backend the fixed message goes to review with confidence 0.0. Otherwise
      review is needed exactly below the threshold; a non-empty first reading at 0.3 or more is
      final; a retried reading keeps the more confident of the two, the first on a tie; so the
      final confidence is never below the first. */
  lemma ExtractProperties(b: Backends, first: TesseractRun, second: EasyRun, threshold: real)
    ensures !b.tesseract && !b.easyocr ==> Extract(b, first, second, threshold) == (OcrUnavailable, 0.0, true)
    ensures b.tesseract || b.easyocr ==>
      var r := Extract(b, first, second, threshold);
      var one := TesseractOcr(b.tesseract && b.pil, first);
      var two := EasyOcr(b.easyocr, second);
      && (r.2 <==> r.1 < threshold)
      && r.1 >= one.1
      && (one.0 != "" && one.1 >= RetryBelow ==> (r.0, r.1) == one)
      && (one.0 == "" || one.1 < RetryBelow ==> (r.0, r.1) == (if two.1 > one.1 then two else one))
  {
  }

  /** When Tesseract's confidences are at most 100 and EasyOCR's lie in [0, 1], the final
      confidence lies in [0, 1]. */
  lemma ExtractConfidenceBounds(b: Backends, first: TesseractRun, second: EasyRun, threshold: real)
    requires first.TesseractRead? ==> forall i :: 0 <= i < |first.data.conf| ==> first.data.conf[i] <= 100
    requires second.EasyRead? ==> forall i :: 0 <= i < |second.results| ==> 0.0 <= second.results[i].1 <= 1.0
    ensures 0.0 <= Extract(b, first, second, threshold).1 <= 1.0
  {
    if first.TesseractRead? {
      TesseractConfidenceProperties(first.data.conf);
    }
    EasyOcrBounds(b.easyocr, second);
  }

  /** `extract_text_from_image`: the second backend is run only when the first reading is empty
      or unsure, and its reading replaces the first only when strictly more confident. */
  method ExtractTextFromImage(b: Backends, first: TesseractRun, second: EasyRun,
                              threshold: real := DefaultOcrThreshold)
    returns (text: string, conf: real, needsHitl: bool)
    ensures (text, conf, needsHitl) == Extract(b, first, second, threshold)
  {
    if !b.tesseract && !b.easyocr {
      return OcrUnavailable, 0.0, true;
    }
    var (text1, conf1) := TesseractOcr(b.tesseract && b.pil, first);
    text, conf := text1, conf1;
    if text == "" || conf < RetryBelow {
      var (text2, conf2) := EasyOcr(b.easyocr, second);
      if conf2 > conf {
        text, conf := text2, conf2;
      }
    }
    needsHitl := conf < threshold;
  }
}
