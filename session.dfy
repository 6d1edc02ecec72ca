/**
 * `extract_sessionid_from_file` (app.py:72-109) after the file has been read:
 * a prioritised chain of three guesses at the Instagram session token in an
 * uploaded cookies file.
 */
module Session {
  import opened Wrappers
  import opened Text

  /**
   * A value of a decoded JSON object, as far as the extractor looks at it:
   * a string, or anything else together with its Python truth value and the
   * text `str()` gives for it.
   */
  datatype JsonValue = JsonString(s: string) | JsonOther(truthy: bool, text: string)

  /** A decoded JSON object (a Python dict with string keys). */
  type JsonObject = map<string, JsonValue>

  /** Python's truth value of a decoded JSON value. */
  predicate Truthy(v: JsonValue) {
    match v
    case JsonString(s) => s != []
    case JsonOther(t, _) => t
  }

  /** `str(v)`. */
  function Str(v: JsonValue): string {
    match v
    case JsonString(s) => s
    case JsonOther(_, text) => text
  }

  /** The keys tried, in order, in a JSON object. */
  const JsonKeys: seq<string> := ["sessionid", "session", "cookie"]

  /** The marker the cookie-style scan looks for. */
  const CookieMarker: string := "sessionid="

  /** The first of `keys` present in `obj` with a truthy value gives the result, stripped. */
  function JsonLookup(obj: JsonObject, keys: seq<string>): (r: Option<string>)
    ensures r.None? <==> forall k :: 0 <= k < |keys| ==> !(keys[k] in obj && Truthy(obj[keys[k]]))
  {
    if keys == [] then None
    else if keys[0] in obj && Truthy(obj[keys[0]]) then Some(Strip(Str(obj[keys[0]])))
    else JsonLookup(obj, keys[1..])
  }

  /** `JsonLookup` answers with the first key present with a truthy value. */
  lemma {:induction false} JsonLookupFirst(obj: JsonObject, keys: seq<string>, i: nat)
    requires i < |keys| && keys[i] in obj && Truthy(obj[keys[i]])
    requires forall j :: 0 <= j < i ==> !(keys[j] in obj && Truthy(obj[keys[j]]))
    ensures JsonLookup(obj, keys) == Some(Strip(Str(obj[keys[i]])))
  {
    if i > 0 {
      JsonLookupFirst(obj, keys[1..], i - 1);
    }
  }

  /**
   * The JSON step. `parsed` is what `json.loads` gave when it returned a dict;
   * it is `None` when decoding raised or gave a list, string or number, all of
   * which fall through because the `TypeError` of the lookup is swallowed.
   */
  function JsonStep(parsed: Option<JsonObject>): Option<string> {
    match parsed
    case None => None
    case Some(obj) => JsonLookup(obj, JsonKeys)
  }

  /** The first of `parts` that contains `pat`, with its index. */
  function FirstContaining(parts: seq<string>, pat: string): (r: Option<nat>)
    ensures r.Some? ==> r.value < |parts| && Contains(parts[r.value], pat)
    ensures r.Some? ==> forall j :: 0 <= j < r.value ==> !Contains(parts[j], pat)
    ensures r.None? ==> forall j :: 0 <= j < |parts| ==> !Contains(parts[j], pat)
  {
    if parts == [] then None
    else if Contains(parts[0], pat) then Some(0)
    else match FirstContaining(parts[1..], pat)
      case None => None
      case Some(i) => Some(i + 1)
  }

  /** The `;`/newline-separated segments the cookie-style scan walks. */
  function Segments(content: string): seq<string> {
    Split(Replace(content, '\n', ';'), ';')
  }

  /**
   * `extract_sessionid_from_file` on the text read from the file; `parseJson`
   * stands for `json.loads` as described at `JsonStep`.
   */
  function ExtractSessionId(fileText: string, parseJson: string -> Option<JsonObject>): Option<string> {
    var content := Strip(fileText);
    if content == [] then None
    else
      var fromJson := JsonStep(parseJson(content));
      if fromJson.Some? then fromJson
      else
        var parts := Segments(content);
        var hit := if Contains(content, CookieMarker) then FirstContaining(parts, CookieMarker) else None;
        if hit.Some? then Some(Strip(LastPiece(parts[hit.value], CookieMarker)))
        else if |content| > 10 && ('\n' !in content || Count(content, '\n') < 3) then Some(Strip(content))
        else None
  }

  /** Whitespace-only or empty files give no token. */
  lemma EmptyGivesNone(fileText: string, parseJson: string -> Option<JsonObject>)
    requires forall k :: 0 <= k < |fileText| ==> IsSpace(fileText[k])
    ensures ExtractSessionId(fileText, parseJson) == None
  {
    StripSlice(fileText);
  }

  /**
   * A JSON object is tried first, before any other format: its `sessionid`
   * if truthy, else `session`, else `cookie`, stripped.
   */
  lemma JsonFirst(fileText: string, parseJson: string -> Option<JsonObject>, obj: JsonObject)
    requires Strip(fileText) != []
    requires parseJson(Strip(fileText)) == Some(obj)
    ensures "sessionid" in obj && Truthy(obj["sessionid"]) ==>
      ExtractSessionId(fileText, parseJson) == Some(Strip(Str(obj["sessionid"])))
    ensures !("sessionid" in obj && Truthy(obj["sessionid"])) && "session" in obj && Truthy(obj["session"]) ==>
      ExtractSessionId(fileText, parseJson) == Some(Strip(Str(obj["session"])))
    ensures !("sessionid" in obj && Truthy(obj["sessionid"])) && !("session" in obj && Truthy(obj["session"]))
              && "cookie" in obj && Truthy(obj["cookie"]) ==>
              ExtractSessionId(fileText, parseJson) == Some(Strip(Str(obj["cookie"])))
  {
    forall i | 0 <= i < |JsonKeys| && JsonKeys[i] in obj && Truthy(obj[JsonKeys[i]])
                && (forall j :: 0 <= j < i ==> !(JsonKeys[j] in obj && Truthy(obj[JsonKeys[j]])))
      ensures JsonStep(Some(obj)) == Some(Strip(Str(obj[JsonKeys[i]])))
    {
      JsonLookupFirst(obj, JsonKeys, i);
    }
    assert JsonKeys[0] == "sessionid" && JsonKeys[1] == "session" && JsonKeys[2] == "cookie";
  }

  /**
   * When the JSON step gives nothing and the content mentions `sessionid=`,
   * the cookie-style branch always answers (the raw-token fallback is never
   * reached): with the text after the last `sessionid=` in the first
   * `;`/newline segment that has one, stripped.
   */
  lemma CookieBranch(fileText: string, parseJson: string -> Option<JsonObject>)
    requires Strip(fileText) != [] && JsonStep(parseJson(Strip(fileText))).None?
    requires Contains(Strip(fileText), CookieMarker)
    ensures exists k ::
              && 0 <= k < |Segments(Strip(fileText))|
              && Contains(Segments(Strip(fileText))[k], CookieMarker)
              && (forall j :: 0 <= j < k ==> !Contains(Segments(Strip(fileText))[j], CookieMarker))
              && ExtractSessionId(fileText, parseJson) == Some(Strip(LastPiece(Segments(Strip(fileText))[k], CookieMarker)))
  {
    var content := Strip(fileText);
    var i := IndexOf(content, CookieMarker).value;
    var replaced := Replace(content, '\n', ';');
    assert replaced[i..i + |CookieMarker|] == content[i..i + |CookieMarker|];
    assert ';' !in CookieMarker;
    SplitKeepsOccurrence(replaced, ';', CookieMarker, i);
    var parts := Segments(content);
    var hit := FirstContaining(parts, CookieMarker);
    assert hit.Some?;
    assert Contains(parts[hit.value], CookieMarker);
  }

  /**
   * With neither a JSON answer nor `sessionid=` in the content, the content
   * itself is the token exactly when it is longer than 10 characters and has
   * fewer than 3 newlines.
   */
  lemma RawFallback(fileText: string, parseJson: string -> Option<JsonObject>)
    requires Strip(fileText) != [] && JsonStep(parseJson(Strip(fileText))).None?
    requires !Contains(Strip(fileText), CookieMarker)
    ensures ExtractSessionId(fileText, parseJson) ==
      if |Strip(fileText)| > 10 && Count(Strip(fileText), '\n') < 3 then Some(Strip(fileText)) else None
  {
    StripIdempotent(fileText);
  }

  /** The example of a cookie line: `sessionid=ABC123;` gives `ABC123`. */
  lemma CookieLineExample(content: string, parseJson: string -> Option<JsonObject>)
    requires content == "sessionid=ABC123;" && parseJson(content) == None
    ensures ExtractSessionId(content, parseJson) == Some("ABC123")
  {
    var first := "sessionid=ABC123";
    CookieLineSegments(content, first);
    StrippedFixed(content);
    assert OccursAt(content, CookieMarker, 0);
    ContainsIff(content, CookieMarker);
    CookieBranch(content, parseJson);
    CookieLinePiece(first);
  }

  lemma CookieLineSegments(content: string, first: string)
    requires content == "sessionid=ABC123;" && first == "sessionid=ABC123"
    ensures Segments(content) == [first, ""]
  {
    ReplaceAbsent(content, '\n', ';');
    assert content == first + [';'] + "";
    SplitAtFirst(first, ';', "");
  }

  lemma CookieLinePiece(first: string)
    requires first == "sessionid=ABC123"
    ensures Strip(LastPiece(first, CookieMarker)) == "ABC123"
  {
    var piece := first[10..];
    assert piece == "ABC123";
    assert IndexOf(first, CookieMarker) == Some(0);
    assert LastPiece(first, CookieMarker) == piece;
    assert !IsSpace(piece[0]) && !IsSpace(piece[5]);
    StrippedFixed(piece);
  }
}
