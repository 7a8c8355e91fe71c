/** The earlier ScanCare service: the upload whitelist, its audit record, and
    how POST /analyze picks the text to analyse from a JSON body. */
module ScanCare {
  import opened Wrappers
  import opened Text
  import opened Json
  import Audit

  // ---------------------------------------------------------------------------
  // allowed_file
  // ---------------------------------------------------------------------------

  const AllowedExtensions: set<string> := {"txt", "pdf", "png", "jpg", "jpeg", "docx"}

  /** The index of the last '.' in `s`, or -1. */
  function LastDot(s: string): (i: int)
    ensures -1 <= i < |s|
    ensures i >= 0 ==> s[i] == '.'
  {
    if |s| == 0 then -1
    else if s[|s| - 1] == '.' then |s| - 1
    else LastDot(s[..|s| - 1])
  }

  /** No dot follows the one found, and there is none at all when -1 comes back. */
  lemma {:induction false} LastDotIsLast(s: string)
    ensures forall j :: LastDot(s) < j < |s| ==> s[j] != '.'
  {
    if |s| > 0 && s[|s| - 1] != '.' {
      LastDotIsLast(s[..|s| - 1]);
    }
  }

  /** `'.' in filename and filename.rsplit('.', 1)[1].lower() in allowed`. */
  predicate HasExtensionIn(filename: string, allowed: set<string>) {
    var i := LastDot(filename);
    i != -1 && Lower(filename[i + 1..]) in allowed
  }

  /** `allowed_file`: the check against the upload whitelist. */
  predicate AllowedFile(filename: string) {
    HasExtensionIn(filename, AllowedExtensions)
  }

  /** The last dot of `stem.ext` is the one before `ext` when `ext` has none. */
  lemma {:induction false} LastDotBeforeExtension(stem: string, ext: string)
    requires '.' !in ext
    ensures LastDot(stem + "." + ext) == |stem|
  {
    var s := stem + "." + ext;
    if |ext| > 0 {
      var shorter := ext[..|ext| - 1];
      assert s[..|s| - 1] == stem + "." + shorter;
      assert '.' !in shorter;
      LastDotBeforeExtension(stem, shorter);
    }
  }

  /** `stem.ext` is judged by `ext` alone when `ext` has no dot. */
  lemma JudgedByExtension(stem: string, ext: string, allowed: set<string>)
    requires '.' !in ext
    ensures HasExtensionIn(stem + "." + ext, allowed) <==> Lower(ext) in allowed
  {
    LastDotBeforeExtension(stem, ext);
    assert (stem + "." + ext)[|stem| + 1..] == ext;
  }

  /** A name is accepted exactly when it is some `stem.ext` whose `ext`
      contains no dot and, lower-cased, is in the set. */
  lemma HasExtensionInIff(filename: string, allowed: set<string>)
    ensures HasExtensionIn(filename, allowed) <==>
              exists stem: string, ext: string ::
                filename == stem + "." + ext && '.' !in ext && Lower(ext) in allowed
  {
    if HasExtensionIn(filename, allowed) {
      var i := LastDot(filename);
      var stem, ext := filename[..i], filename[i + 1..];
      SplitAtLastDot(filename);
      assert filename == stem + "." + ext && '.' !in ext && Lower(ext) in allowed;
    }
    if exists stem: string, ext: string :: filename == stem + "." + ext && '.' !in ext && Lower(ext) in allowed {
      var stem: string, ext: string :| filename == stem + "." + ext && '.' !in ext && Lower(ext) in allowed;
      JudgedByExtension(stem, ext, allowed);
    }
  }

  /** A name with a dot is its stem, the last dot, and a dot-free extension. */
  lemma SplitAtLastDot(filename: string)
    requires LastDot(filename) != -1
    ensures var i := LastDot(filename);
            filename == filename[..i] + "." + filename[i + 1..] && '.' !in filename[i + 1..]
  {
    var i := LastDot(filename);
    var ext := filename[i + 1..];
    LastDotIsLast(filename);
    assert forall j :: 0 <= j < |ext| ==> ext[j] == filename[i + 1 + j];
  }

  /** Case does not matter, nor do dots in the stem: `R.TXT` and `a.b.pdf`
      are accepted. */
  lemma AcceptedNames()
    ensures AllowedFile("R.TXT")
    ensures AllowedFile("a.b.pdf")
  {
    JudgedByExtension("R", "TXT", AllowedExtensions);
    assert "R" + "." + "TXT" == "R.TXT";
    assert Lower("TXT") == "txt";
    JudgedByExtension("a.b", "pdf", AllowedExtensions);
    assert "a.b" + "." + "pdf" == "a.b.pdf";
    assert Lower("pdf") == "pdf";
  }

  /** Only what follows the last dot counts: `a.txt.exe` is refused. */
  lemma JudgesLastExtension()
    ensures !AllowedFile("a.txt.exe")
  {
    JudgedByExtension("a.txt", "exe", AllowedExtensions);
    assert "a.txt" + "." + "exe" == "a.txt.exe";
    assert Lower("exe") == "exe";
  }

  /** A name without a dot, or with nothing after its last dot, is refused. */
  lemma RefusesMissingExtension()
    ensures !AllowedFile("txt")
    ensures !AllowedFile("report.")
  {
    assert Lower("") == "";
  }

  // ---------------------------------------------------------------------------
  // log_event
  // ---------------------------------------------------------------------------

  /** The structured record (its timestamp is not modelled). */
  datatype Event = Event(
    event: string,
    status: Option<string>,
    query: Option<string>,
    responsePreview: Option<string>,
    metadata: map<string, Value>)

  /** `log_event`: the query is cut to 200 characters, the response to 200
      characters plus an ellipsis when longer, and missing metadata becomes
      the empty object. */
  function LogEvent(eventType: string, status: Option<string>, query: Option<string>,
                    response: Option<string>, metadata: Option<map<string, Value>>): (e: Event)
    ensures e.event == eventType && e.status == status
    ensures e.query.None? <==> query.None? || query.value == ""
    ensures e.query.Some? ==> |e.query.value| <= Audit.PreviewLimit && e.query.value <= query.value
    ensures e.query == Audit.Truncate(query)
    ensures e.responsePreview.None? <==> response.None? || response.value == ""
    ensures e.responsePreview.Some? ==> |e.responsePreview.value| <= Audit.PreviewLimit + 1
    ensures e.responsePreview == Audit.Preview(response)
    ensures e.metadata == if metadata.Some? then metadata.value else map[]
  {
    Event(eventType, status, Audit.Truncate(query), Audit.Preview(response), metadata.GetOr(map[]))
  }

  // ---------------------------------------------------------------------------
  // POST /analyze: which text is analysed
  // ---------------------------------------------------------------------------

  datatype AnalysisKind = General | TextReport | HealthQuery

  /** The text chosen and its kind; no usable text (400); or an exception while
      reading the body, which the handler turns into a 500 reply. */
  datatype Selection = NoInput | Failed | Selected(text: Value, kind: AnalysisKind) {
    function Code(): int {
      match this
      case NoInput => 400
      case Failed => 500
      case Selected(_, _) => 200
    }
  }

  /** Picks the text from the decoded JSON body (None when there is none):
      `report_text` wins over `query`; the choice is made on the key being
      present, so a present but empty `report_text` ends in 400 even when a
      `query` is given. */
  method SelectReportInput(body: Option<Value>) returns (s: Selection)
    ensures body.None? || !Truthy(body.value) ==> s == NoInput
    ensures body.Some? && Truthy(body.value) && !IsContainer(body.value) ==> s == Failed
    ensures body.Some? && Truthy(body.value) && (body.value.Arr? || body.value.Str?) ==>
              s == if In(body.value, "report_text") || In(body.value, "query") then Failed else NoInput
    ensures body.Some? && body.value.Obj? && "report_text" in body.value.fields ==>
              var t := body.value.fields["report_text"];
              s == if Truthy(t) then Selected(t, TextReport) else NoInput
    ensures body.Some? && body.value.Obj? && "report_text" !in body.value.fields && "query" in body.value.fields ==>
              var q := body.value.fields["query"];
              s == if Truthy(q) then Selected(q, HealthQuery) else NoInput
    ensures body.Some? && body.value.Obj? && "report_text" !in body.value.fields && "query" !in body.value.fields ==>
              s == NoInput
    ensures s.Selected? ==> Truthy(s.text) && s.kind != General
  {
    var reportText := Null;
    var analysisType := General;
    if body.Some? && Truthy(body.value) {
      var data := body.value;
      if !IsContainer(data) {
        return Failed;
      }
      if In(data, "report_text") {
        var v := Get(data, "report_text");
        if v.None? {
          return Failed;
        }
        reportText := v.value;
        analysisType := TextReport;
      } else if In(data, "query") {
        var v := Get(data, "query");
        if v.None? {
          return Failed;
        }
        reportText := v.value;
        analysisType := HealthQuery;
      }
    }
    if !Truthy(reportText) {
      return NoInput;
    }
    return Selected(reportText, analysisType);
  }
}
