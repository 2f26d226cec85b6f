/** Helpers of the course app (backend/course/utils.py): the file types and
    the size cap for AI grading, and the extraction of a JSON value from a
    model's free-text answer. JSON decoding itself is a parameter: `parse`
    returns the decoded value, or `None` where the decoder raises. */
module CourseUtils {
  import opened Wrappers
  import opened Text

  /** File extensions whose text can be sent for AI grading. */
  const ALLOWED_EXTENSIONS: seq<string> :=
    [".txt", ".vue", ".py", ".html", ".js", ".sh", ".bash", ".json", ".c", ".cpp", ".java", ".md"]

  /** Largest combined submission text, in characters, sent for AI grading. */
  const MAX_CONTENT_LENGTH: nat := 15000

  /** The decoded JSON values. */
  datatype Json =
    | JNull
    | JBool(b: bool)
    | JNumber(n: real)
    | JString(s: string)
    | JArray(items: seq<Json>)
    | JObject(fields: map<string, Json>)

  /** A slice `s[start..end]` of the input. */
  datatype Span = Span(start: nat, end: nat)

  function Slice(s: string, sp: Span): string
    requires sp.start <= sp.end <= |s|
  {
    s[sp.start..sp.end]
  }

  /** The first position at or after `i` that is not whitespace. */
  function SkipSpace(s: string, i: nat): (k: nat)
    requires i <= |s|
    ensures i <= k <= |s| && (k == |s| || !IsSpace(s[k]))
    ensures forall m :: i <= m < k ==> IsSpace(s[m])
    decreases |s| - i
  {
    if i < |s| && IsSpace(s[i]) then SkipSpace(s, i + 1) else i
  }

  /** A `}` at `j` that the closing part of the fence pattern accepts:
      optional whitespace, then three backquotes. */
  predicate FenceEndsAt(s: string, j: nat)
    requires j < |s|
  {
    s[j] == '}' && StartsWith(s[SkipSpace(s, j + 1)..], "```")
  }

  /** The first `}` at or after `j` that ends a fence (the lazy `.*?`). */
  function FirstFenceEnd(s: string, j: nat): (r: Option<nat>)
    requires j <= |s|
    ensures r.Some? ==> j <= r.value < |s| && FenceEndsAt(s, r.value)
    ensures r.Some? ==> forall m :: j <= m < r.value ==> !FenceEndsAt(s, m)
    ensures r.None? ==> forall m :: j <= m < |s| ==> !FenceEndsAt(s, m)
    decreases |s| - j
  {
    if j == |s| then None
    else if FenceEndsAt(s, j) then Some(j)
    else FirstFenceEnd(s, j + 1)
  }

  /** The fenced object of a match that starts at `i`: "```json",
      whitespace, then `{`, up to the first `}` that closes the fence. */
  function FenceAt(s: string, i: nat): (r: Option<Span>)
    requires i <= |s|
    ensures r.Some? ==> i + 7 <= r.value.start && r.value.start + 2 <= r.value.end <= |s|
    ensures r.Some? ==> s[i..i + 7] == "```json" && s[r.value.start] == '{' && FenceEndsAt(s, r.value.end - 1)
  {
    if StartsWith(s[i..], "```json") then
      var k := SkipSpace(s, i + 7);
      if k < |s| && s[k] == '{' then
        match FirstFenceEnd(s, k + 1)
        case Some(j) => Some(Span(k, j + 1))
        case None => None
      else None
    else None
  }

  /** The leftmost fence match at or after `i`. */
  function FindFence(s: string, i: nat): (r: Option<Span>)
    requires i <= |s|
    ensures r.Some? ==> r.value.start + 2 <= r.value.end <= |s|
    ensures r.Some? ==> s[r.value.start] == '{' && s[r.value.end - 1] == '}' && FenceEndsAt(s, r.value.end - 1)
    ensures r.None? ==> forall m :: i <= m <= |s| ==> FenceAt(s, m).None?
    decreases |s| - i
  {
    if FenceAt(s, i).Some? then FenceAt(s, i)
    else if i == |s| then None
    else FindFence(s, i + 1)
  }

  /** From the first `open` to the last `close`, when both exist in that order. */
  function DelimitedSpan(s: string, open: char, close: char): (r: Option<Span>)
    ensures r.Some? ==> r.value.start < r.value.end - 1 < |s|
    ensures r.Some? ==> s[r.value.start] == open && s[r.value.end - 1] == close
    ensures r.Some? ==> open !in s[..r.value.start] && close !in s[r.value.end..]
    ensures r.None? <==> open !in s || close !in s || RFind(s, close) <= Find(s, open)
  {
    var first := Find(s, open);
    var last := RFind(s, close);
    if first != -1 && last != -1 && last > first then Some(Span(first, last + 1)) else None
  }

  /** The one candidate the extractor decodes, chosen in stage order. */
  function CandidateSpan(s: string): (r: Option<Span>)
    ensures r.Some? ==> r.value.start <= r.value.end <= |s|
  {
    if FindFence(s, 0).Some? then FindFence(s, 0)
    else if DelimitedSpan(s, '{', '}').Some? then DelimitedSpan(s, '{', '}')
    else DelimitedSpan(s, '[', ']')
  }

  /** `extract_json_from_string`: decode the stripped candidate; a decoding
      failure gives `None` and no later stage is tried. */
  function ExtractJson(s: string, parse: string -> Option<Json>): Option<Json> {
    match CandidateSpan(s)
    case None => None
    case Some(sp) => parse(Strip(Slice(s, sp)))
  }

  /** Every candidate opens and closes with its delimiters. */
  lemma CandidateDelimited(s: string)
    requires CandidateSpan(s).Some?
    ensures var c := Slice(s, CandidateSpan(s).value);
      |c| >= 2 && ((c[0] == '{' && c[|c| - 1] == '}') || (c[0] == '[' && c[|c| - 1] == ']'))
  {
    var sp := CandidateSpan(s).value;
    if FindFence(s, 0).Some? {
      assert sp == FindFence(s, 0).value;
    } else if DelimitedSpan(s, '{', '}').Some? {
      assert sp == DelimitedSpan(s, '{', '}').value;
    } else {
      assert sp == DelimitedSpan(s, '[', ']').value;
    }
    SliceEnds(s, sp);
  }

  /** The first and last characters of a slice of two or more. */
  lemma SliceEnds(s: string, sp: Span)
    requires sp.start + 2 <= sp.end <= |s|
    ensures |Slice(s, sp)| >= 2 && Slice(s, sp)[0] == s[sp.start] && Slice(s, sp)[|Slice(s, sp)| - 1] == s[sp.end - 1]
  {
  }

  /** Only one candidate is ever decoded: two decoders that agree on it
      give the same result, however they differ on every other string, so
      a failed decode never falls through to a later stage. */
  lemma OneCandidateDecoded(s: string, parse1: string -> Option<Json>, parse2: string -> Option<Json>)
    requires CandidateSpan(s).Some? ==>
      parse1(Strip(Slice(s, CandidateSpan(s).value))) == parse2(Strip(Slice(s, CandidateSpan(s).value)))
    ensures ExtractJson(s, parse1) == ExtractJson(s, parse2)
    ensures CandidateSpan(s).None? ==> ExtractJson(s, parse1) == None
  {
  }

  /** If no position starts a fence, the search finds none. */
  lemma {:induction false} FindFenceNone(s: string, i: nat)
    requires i <= |s|
    requires forall m :: i <= m <= |s| ==> FenceAt(s, m).None?
    ensures FindFence(s, i).None?
    decreases |s| - i
  {
    if i < |s| {
      FindFenceNone(s, i + 1);
    }
  }

  /** An extension is allowed exactly when it is one of the twelve listed. */
  function IsAllowedExtension(ext: string): (r: bool)
    ensures r <==> exists i :: 0 <= i < |ALLOWED_EXTENSIONS| && ALLOWED_EXTENSIONS[i] == ext
  {
    ext in ALLOWED_EXTENSIONS
  }
}
