/**
 * The image-analysis panel (`AnalizarImg`): it uploads the chosen file and
 * shows the backend's `resultado` either as a parsed document or, when the
 * fenced JSON text in it does not parse, as the raw text.
 */
module ImageAnalysis {
  import opened Wrappers
  import opened Js

  const SelectImageMessage := "Por favor selecciona una imagen."
  const AnalysisFailedMessage := "Error al analizar la imagen"

  const Fence: string := "```"
  const JsonFence: string := "```json"

  predicate StartsWith(s: string, prefix: string) {
    |prefix| <= |s| && s[..|prefix|] == prefix
  }

  // ---------------------------------------------------------------------------
  // Fence cleaning: `parsedResult.replace(/```json|```/g, "").trim()`
  // ---------------------------------------------------------------------------

  /**
   * The global replace: scanning left to right, at each position "```json"
   * is tried before "```"; a match is dropped and the scan resumes after it,
   * any other character is kept.
   */
  function RemoveFences(s: string): (r: string)
    ensures |r| <= |s|
  {
    if StartsWith(s, JsonFence) then RemoveFences(s[|JsonFence|..])
    else if StartsWith(s, Fence) then RemoveFences(s[|Fence|..])
    else if s == [] then []
    else [s[0]] + RemoveFences(s[1..])
  }

  /**
   * The cleaned text handed to `JSON.parse`: the fences removed, then
   * trimmed. No "```" is left in it and neither end is white space.
   */
  function Clean(s: string): (r: string)
    ensures FenceFree(r) && IsTrimmed(r)
  {
    var t := RemoveFences(s);
    RemovesEveryFence(s);
    TrimIsTrimmedSlice(t);
    var a := |t| - |TrimStart(t)|;
    SliceFenceFree(t, a, a + |Trim(t)|);
    Trim(t)
  }

  /** "```" occurs in `t` at position `i`. */
  predicate FenceAt(t: string, i: int) {
    0 <= i && i + 3 <= |t| && t[i] == '`' && t[i + 1] == '`' && t[i + 2] == '`'
  }

  predicate FenceFree(t: string) {
    forall i :: 0 <= i < |t| ==> !FenceAt(t, i)
  }

  /** A character that is not a backtick is kept as the head of the result. */
  lemma KeepsPlainHead(s: string)
    requires s != [] && s[0] != '`'
    ensures RemoveFences(s) == [s[0]] + RemoveFences(s[1..])
  {
    assert !StartsWith(s, JsonFence) && !StartsWith(s, Fence);
  }

  /** A text that does not start with two backticks cleans to one that does not either. */
  lemma NoLeadingPair(u: string)
    requires !(|u| >= 2 && u[0] == '`' && u[1] == '`')
    ensures var r := RemoveFences(u); !(|r| >= 2 && r[0] == '`' && r[1] == '`')
  {
    if u == [] {
    } else if u[0] != '`' {
      KeepsPlainHead(u);
    } else {
      assert !StartsWith(u, JsonFence) && !StartsWith(u, Fence);
      var w := u[1..];
      if w != [] {
        KeepsPlainHead(w);
      }
    }
  }

  /** Putting `c` in front of a fence-free `t` that does not start with "``" after a backtick keeps it fence-free. */
  lemma ConsFenceFree(c: char, t: string)
    requires FenceFree(t)
    requires !(c == '`' && |t| >= 2 && t[0] == '`' && t[1] == '`')
    ensures FenceFree([c] + t)
  {
    var ct := [c] + t;
    forall i | 1 <= i
      ensures !FenceAt(ct, i)
    {
      assert !FenceAt(t, i - 1);
    }
  }

  /** Removing the fences leaves no "```" anywhere, even where a removal joins backticks. */
  lemma {:induction false} RemovesEveryFence(s: string)
    ensures FenceFree(RemoveFences(s))
    decreases |s|
  {
    if StartsWith(s, JsonFence) {
      RemovesEveryFence(s[|JsonFence|..]);
    } else if StartsWith(s, Fence) {
      RemovesEveryFence(s[|Fence|..]);
    } else if s != [] {
      RemovesEveryFence(s[1..]);
      if s[0] == '`' {
        assert |s| >= 3 ==> s[..3] == [s[0], s[1], s[2]];
        NoLeadingPair(s[1..]);
      }
      ConsFenceFree(s[0], RemoveFences(s[1..]));
    }
  }

  /** A piece of a fence-free text is fence-free. */
  lemma SliceFenceFree(t: string, a: int, b: int)
    requires FenceFree(t) && 0 <= a <= b <= |t|
    ensures FenceFree(t[a..b])
  {
    forall i | FenceAt(t[a..b], i)
      ensures false
    {
      assert FenceAt(t, a + i);
    }
  }

  /** Fence removal leaves a fence-free text as it is. */
  lemma {:induction false} FenceFreeIsUnchanged(t: string)
    requires FenceFree(t)
    ensures RemoveFences(t) == t
    decreases |t|
  {
    if t != [] {
      assert !FenceAt(t, 0);
      assert |t| >= 7 ==> t[..7][..3] == t[..3];
      assert !StartsWith(t, Fence) && !StartsWith(t, JsonFence);
      forall i | 0 <= i < |t| - 1
        ensures !FenceAt(t[1..], i)
      {
        assert !FenceAt(t, i + 1);
      }
      FenceFreeIsUnchanged(t[1..]);
    }
  }

  /** The texts cleaning leaves as they are: exactly the fence-free, trimmed ones. */
  lemma CleanFixedPoints(t: string)
    ensures Clean(t) == t <==> FenceFree(t) && IsTrimmed(t)
  {
    if FenceFree(t) && IsTrimmed(t) {
      FenceFreeIsUnchanged(t);
      TrimFixedPoint(t);
    }
  }

  /** Cleaning an already cleaned text changes nothing. */
  lemma CleanIdempotent(s: string)
    ensures Clean(Clean(s)) == Clean(s)
  {
    CleanFixedPoints(Clean(s));
  }

  /** A backtick-free text wrapped as "```json" + x + "```" comes out as `x`. */
  lemma UnwrapsJsonBlock(x: string)
    requires forall i :: 0 <= i < |x| ==> x[i] != '`'
    ensures RemoveFences(JsonFence + (x + Fence)) == x
  {
    DropsLeadingJsonFence(x + Fence);
    PlainPrefixKept(x);
  }

  /** The backend's usual answer, a fenced block around a backtick-free document, cleans to the trimmed document. */
  lemma CleansJsonBlock(x: string)
    requires forall i :: 0 <= i < |x| ==> x[i] != '`'
    ensures Clean(JsonFence + (x + Fence)) == Trim(x)
  {
    UnwrapsJsonBlock(x);
  }

  /**
   * The shape the backend answers with, "```json\n" + document + "\n```",
   * cleans to the document itself when it is trimmed and holds no backtick.
   */
  lemma CleansNewlineFencedBlock(body: string)
    requires body != [] && IsTrimmed(body)
    requires forall i :: 0 <= i < |body| ==> body[i] != '`'
    ensures Clean(JsonFence + ("\n" + body + "\n" + Fence)) == body
  {
    var x := "\n" + body + "\n";
    assert forall i :: 0 <= i < |x| ==> x[i] != '`' by {
      forall i | 0 <= i < |x|
        ensures x[i] != '`'
      {
        if 0 < i < |x| - 1 {
          assert x[i] == body[i - 1];
        }
      }
    }
    CleansJsonBlock(x);
    NewlinesTrimmed(body);
  }

  /** A trimmed, non-empty text between two newlines trims back to itself. */
  lemma NewlinesTrimmed(body: string)
    requires body != [] && IsTrimmed(body)
    ensures Trim("\n" + body + "\n") == body
  {
    var x := "\n" + body + "\n";
    assert x[1..] == body + "\n";
    assert TrimStart(x[1..]) == x[1..];
    assert (body + "\n")[..|body|] == body;
  }

  /** A leading "```json" is dropped and the scan goes on after it. */
  lemma DropsLeadingJsonFence(rest: string)
    ensures RemoveFences(JsonFence + rest) == RemoveFences(rest)
  {
    var s := JsonFence + rest;
    assert s[..|JsonFence|] == JsonFence;
    assert s[|JsonFence|..] == rest;
  }

  /** A backtick-free text followed by a closing "```" loses only the fence. */
  lemma {:induction false} PlainPrefixKept(x: string)
    requires forall i :: 0 <= i < |x| ==> x[i] != '`'
    ensures RemoveFences(x + Fence) == x
    decreases |x|
  {
    var s := x + Fence;
    if x == [] {
      assert s == Fence && StartsWith(s, Fence);
      assert s[3..] == [];
    } else {
      KeepsPlainHead(s);
      assert s[1..] == x[1..] + Fence;
      PlainPrefixKept(x[1..]);
    }
  }

  // ---------------------------------------------------------------------------
  // handleUpload
  // ---------------------------------------------------------------------------

  /** The chosen file; the model never looks inside it. */
  datatype ImageFile = ImageFile(name: string)

  /** What ended the upload: `fetch` threw, or a response came with its status flag and body text. */
  datatype UploadOutcome = UploadRejected | UploadAnswered(ok: bool, body: string)

  /** The one thing the response leads to: the generic error, a parsed result, or the raw text. */
  datatype Analysis = Failed | Parsed(value: JsValue) | Raw(text: string)

  /** `data.resultado` of an ok response whose body is JSON; `None` when reading it throws or fails earlier. */
  function Resultado(outcome: UploadOutcome, rt: Runtime): (r: Option<JsValue>)
    ensures r.Some? ==> outcome.UploadAnswered? && outcome.ok && rt.parse(outcome.body).Some?
    ensures r.None? <==>
      || outcome.UploadRejected? || !outcome.ok || rt.parse(outcome.body).None?
      || rt.parse(outcome.body).value in {JsNull, Prim(Undefined)}
    ensures r.Some? && rt.parse(outcome.body).value.Obj? && "resultado" in rt.parse(outcome.body).value.fields ==>
      r.value == rt.parse(outcome.body).value.fields["resultado"]
  {
    if outcome.UploadAnswered? && outcome.ok && rt.parse(outcome.body).Some? then
      Get(rt.parse(outcome.body).value, "resultado")
    else None
  }

  /**
   * The try/catch of `handleUpload` after the request: a thrown `fetch`, a
   * non-JSON body (`response.json()` throws), a non-ok status (throws before
   * any result) and a null body (reading `resultado` throws) all fail; a
   * string result is cleaned and parsed, falling back to the original text;
   * any other result is taken as it is.
   */
  function Interpret(outcome: UploadOutcome, rt: Runtime): (a: Analysis)
    ensures a.Failed? <==> Resultado(outcome, rt).None?
    ensures a.Raw? ==>
      Resultado(outcome, rt) == Some(Prim(Str(a.text))) && rt.parse(Clean(a.text)).None?
    ensures a.Parsed? ==>
      && Resultado(outcome, rt).Some?
      && (match Resultado(outcome, rt).value
          case Prim(Str(s)) => rt.parse(Clean(s)) == Some(a.value)
          case v => a.value == v)
  {
    match outcome
    case UploadRejected => Failed
    case UploadAnswered(ok, body) =>
      match rt.parse(body)
      case None => Failed
      case Some(data) =>
        if !ok then Failed
        else
          match Get(data, "resultado")
          case None => Failed
          case Some(Prim(Str(s))) =>
            (match rt.parse(Clean(s))
             case Some(v) => Parsed(v)
             case None => Raw(s))
          case Some(v) => Parsed(v)
  }

  /** Every failure shows the same message, whatever the server said (`detalle` included). */
  lemma FailuresAreGeneric(outcome: UploadOutcome, rt: Runtime)
    requires outcome.UploadRejected? || !outcome.ok || rt.parse(outcome.body).None?
    ensures Interpret(outcome, rt) == Failed
  {
  }

  class AnalizarImg {
    var file: Option<ImageFile>
    var loading: bool
    var resultado: JsValue
    var resultadoCrudo: Option<string>
    var error: Option<string>

    /**
     * At most one of the two results is shown, and while an upload is in
     * flight a file is chosen and the error and both results are cleared.
     */
    predicate Valid()
      reads this
    {
      && (resultado == JsNull || resultadoCrudo == None)
      && (loading ==> file.Some? && error == None && resultado == JsNull && resultadoCrudo == None)
    }

    constructor ()
      ensures Valid()
      ensures file == None && !loading && resultado == JsNull && resultadoCrudo == None && error == None
    {
      file := None;
      loading := false;
      resultado := JsNull;
      resultadoCrudo := None;
      error := None;
    }

    /** `handleFileChange`: the first chosen file, if any, replaces the current one. */
    method HandleFileChange(files: seq<ImageFile>)
      requires Valid()
      modifies this`file
      ensures Valid()
      ensures file == if |files| > 0 then Some(files[0]) else old(file)
    {
      if |files| > 0 {
        file := Some(files[0]);
      }
    }

    /**
     * `handleUpload` before the request. Without a file only the error is
     * set and nothing is sent; otherwise the error and both results are
     * cleared and `loading` is raised.
     */
    method BeginUpload() returns (sent: bool)
      requires Valid()
      modifies this`loading, this`error, this`resultado, this`resultadoCrudo
      ensures Valid()
      ensures sent == old(file).Some?
      ensures !sent ==>
        && error == Some(SelectImageMessage)
        && loading == old(loading) && resultado == old(resultado) && resultadoCrudo == old(resultadoCrudo)
      ensures sent ==> loading && error == None && resultado == JsNull && resultadoCrudo == None
    {
      if file.None? {
        error := Some(SelectImageMessage);
        return false;
      }
      loading := true;
      error := None;
      resultado := JsNull;
      resultadoCrudo := None;
      sent := true;
    }

    /**
     * `handleUpload` after the response: exactly one of the error, the
     * parsed result and the raw text is written, and `loading` ends false.
     */
    method FinishUpload(outcome: UploadOutcome, rt: Runtime)
      requires Valid() && loading
      modifies this`loading, this`error, this`resultado, this`resultadoCrudo
      ensures Valid() && !loading
      ensures Interpret(outcome, rt).Failed? ==>
        error == Some(AnalysisFailedMessage) && resultado == JsNull && resultadoCrudo == None
      ensures Interpret(outcome, rt).Parsed? ==>
        resultado == Interpret(outcome, rt).value && resultadoCrudo == None && error == None
      ensures Interpret(outcome, rt).Raw? ==>
        resultadoCrudo == Some(Interpret(outcome, rt).text) && resultado == JsNull && error == None
    {
      match Interpret(outcome, rt) {
        case Failed =>
          error := Some(AnalysisFailedMessage);
        case Parsed(v) =>
          resultado := v;
        case Raw(text) =>
          resultadoCrudo := Some(text);
      }
      loading := false;
    }
  }
}
