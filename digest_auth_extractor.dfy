/**
 * DigestAuthExtractor: reads the `Authorization: Digest ...` header and turns
 * its comma/space separated `key=value` pairs into DigestCredentials.
 */
module DigestAuth {
  import opened Wrappers
  import opened JavaStrings
  import opened Web

  const AUTHORIZATION_HEADER := "Authorization"
  const DIGEST_HEADER_PREFIX := "Digest "
  const BAD_FORMAT_MESSAGE := "Bad format of the digest auth header"

  /** The header extractor a DigestAuthExtractor delegates to: a header name and the prefix its value must carry. */
  datatype DigestAuthExtractor = DigestAuthExtractor(headerName: string, prefixHeader: string)

  /** The no-argument constructor reads `Authorization` with the prefix `Digest `. */
  const DefaultDigestAuthExtractor := DigestAuthExtractor(AUTHORIZATION_HEADER, DIGEST_HEADER_PREFIX)

  /**
   * The header extractor: the header's value after the prefix, or nothing when
   * the header is absent or does not start with the prefix.
   */
  function HeaderToken(request: Request, headerName: string, prefix: string): (r: Option<string>)
    ensures r.Some? <==> headerName in request.headers && StartsWith(request.headers[headerName], prefix)
    ensures r.Some? ==> prefix + r.value == request.headers[headerName]
  {
    match RequestHeader(request, headerName)
    case Some(header) =>
      if StartsWith(header, prefix) then
        assert prefix + header[|prefix|..] == header[..|prefix|] + header[|prefix|..];
        Some(header[|prefix|..])
      else None
    case None => None
  }

  // ---------------------------------------------------------------------------
  // The tokenizer: `new StringTokenizer(token, ", ")`
  // ---------------------------------------------------------------------------

  predicate IsDelimiter(c: char) {
    c == ',' || c == ' '
  }

  predicate NoDelimiter(t: string) {
    forall i :: 0 <= i < |t| ==> !IsDelimiter(t[i])
  }

  /** A token is a non-empty run of characters other than `,` and space. */
  predicate IsToken(t: string) {
    t != [] && NoDelimiter(t)
  }

  function Flush(current: string): seq<string> {
    if current == [] then [] else [current]
  }

  /** Tokens of `s`, where `current` is the part of a token already read. */
  function TokenizeFrom(s: string, current: string): (tokens: seq<string>)
    requires NoDelimiter(current)
    ensures forall k :: 0 <= k < |tokens| ==> IsToken(tokens[k])
    decreases |s|
  {
    if s == [] then Flush(current)
    else if IsDelimiter(s[0]) then Flush(current) + TokenizeFrom(s[1..], [])
    else TokenizeFrom(s[1..], current + [s[0]])
  }

  /** The tokens `StringTokenizer` hands out, in order. */
  function Tokenize(s: string): (tokens: seq<string>)
    ensures forall k :: 0 <= k < |tokens| ==> IsToken(tokens[k])
  {
    TokenizeFrom(s, [])
  }

  lemma {:induction false} TokenizeFromSplit(a: string, d: char, b: string, current: string)
    requires NoDelimiter(current) && IsDelimiter(d)
    ensures TokenizeFrom(a + [d] + b, current) == TokenizeFrom(a, current) + Tokenize(b)
    decreases |a|
  {
    var s := a + [d] + b;
    if a == [] {
      assert s[0] == d && s[1..] == b;
    } else {
      assert s[0] == a[0] && s[1..] == a[1..] + [d] + b;
      if IsDelimiter(a[0]) {
        TokenizeFromSplit(a[1..], d, b, []);
      } else {
        TokenizeFromSplit(a[1..], d, b, current + [a[0]]);
      }
    }
  }

  /** A delimiter ends a token: what lies on its two sides is tokenized independently. */
  lemma TokenizeSplit(a: string, d: char, b: string)
    requires IsDelimiter(d)
    ensures Tokenize(a + [d] + b) == Tokenize(a) + Tokenize(b)
  {
    TokenizeFromSplit(a, d, b, []);
  }

  lemma {:induction false} TokenizeFromWord(w: string, current: string)
    requires NoDelimiter(w) && NoDelimiter(current) && current + w != []
    ensures TokenizeFrom(w, current) == [current + w]
    decreases |w|
  {
    if w == [] {
      assert current + w == current;
    } else {
      assert current + w == (current + [w[0]]) + w[1..];
      TokenizeFromWord(w[1..], current + [w[0]]);
    }
  }

  /** A run without delimiters is a single token: tokens are maximal. */
  lemma TokenizeWord(w: string)
    requires IsToken(w)
    ensures Tokenize(w) == [w]
  {
    TokenizeFromWord(w, []);
    assert [] + w == w;
  }

  // ---------------------------------------------------------------------------
  // parseTokenValue
  // ---------------------------------------------------------------------------

  /**
   * What one token adds to the map: nothing without an `=`; otherwise the
   * trimmed text before the first `=` as key, and the text after it with every
   * `"` removed and trimmed as value.
   */
  function Entry(keyval: string): Option<(string, string)> {
    if '=' in keyval then
      var i := IndexOf(keyval, '=');
      Some((Trim(keyval[..i]), Trim(RemoveAll(keyval[i + 1..], '"'))))
    else None
  }

  /**
   * A token contributes exactly when it contains `=`; its key then holds no `=`,
   * its value no `"`, and neither has leading or trailing white space.
   */
  lemma EntryShape(keyval: string)
    ensures Entry(keyval).Some? <==> '=' in keyval
    ensures Entry(keyval).Some? ==> '=' !in Entry(keyval).value.0 && IsTrimmed(Entry(keyval).value.0)
    ensures Entry(keyval).Some? ==> '"' !in Entry(keyval).value.1 && IsTrimmed(Entry(keyval).value.1)
  {
  }

  /** The key ends at the first `=`; later ones belong to the value. */
  lemma EntrySplitsAtFirstEquals(key: string, value: string)
    requires '=' !in key
    ensures Entry(key + "=" + value) == Some((Trim(key), Trim(RemoveAll(value, '"'))))
  {
    var s := key + "=" + value;
    assert s[|key|] == '=';
    var i := IndexOf(s, '=');
    assert s[..i] == key && s[i + 1..] == value;
  }

  /** How a single token is turned into a map entry, if at all. */
  type EntryRule = string -> Option<(string, string)>

  /** The map built by putting the entry of each token in turn: later tokens overwrite earlier ones. */
  function Fold(rule: EntryRule, tokens: seq<string>): map<string, string> {
    if tokens == [] then map[]
    else
      var m := Fold(rule, tokens[..|tokens| - 1]);
      match rule(tokens[|tokens| - 1])
      case None => m
      case Some(kv) => m[kv.0 := kv.1]
  }

  predicate Assigns(rule: EntryRule, token: string, key: string) {
    rule(token).Some? && rule(token).value.0 == key
  }

  /** A key is in the map exactly when some token assigns it. */
  lemma {:induction false} FoldKeys(rule: EntryRule, tokens: seq<string>, key: string)
    ensures key in Fold(rule, tokens) <==> exists i :: 0 <= i < |tokens| && Assigns(rule, tokens[i], key)
    decreases |tokens|
  {
    if tokens != [] {
      var n := |tokens| - 1;
      var init := tokens[..n];
      FoldKeys(rule, init, key);
      if exists i :: 0 <= i < |init| && Assigns(rule, init[i], key) {
        var i :| 0 <= i < |init| && Assigns(rule, init[i], key);
        assert tokens[i] == init[i];
      }
      if exists i :: 0 <= i < |tokens| && Assigns(rule, tokens[i], key) {
        var i :| 0 <= i < |tokens| && Assigns(rule, tokens[i], key);
        if i < n {
          assert init[i] == tokens[i];
        }
      }
    }
  }

  /** When a key repeats, the value of its last occurrence is the one kept. */
  lemma {:induction false} FoldLastAssignmentWins(rule: EntryRule, tokens: seq<string>, i: nat, key: string)
    requires i < |tokens| && Assigns(rule, tokens[i], key)
    requires forall j :: i < j < |tokens| ==> !Assigns(rule, tokens[j], key)
    ensures key in Fold(rule, tokens) && Fold(rule, tokens)[key] == rule(tokens[i]).value.1
    decreases |tokens|
  {
    var n := |tokens| - 1;
    var init := tokens[..n];
    if i < n {
      assert init[i] == tokens[i];
      assert forall j :: i < j < |init| ==> init[j] == tokens[j];
      FoldLastAssignmentWins(rule, init, i, key);
    }
  }

  /** Every stored value is one the rule produced. */
  lemma {:induction false} FoldValues(rule: EntryRule, tokens: seq<string>, key: string)
    requires key in Fold(rule, tokens)
    ensures exists i :: 0 <= i < |tokens| && rule(tokens[i]) == Some((key, Fold(rule, tokens)[key]))
    decreases |tokens|
  {
    var n := |tokens| - 1;
    var init := tokens[..n];
    if rule(tokens[n]) != Some((key, Fold(rule, tokens)[key])) {
      FoldValues(rule, init, key);
      var i :| 0 <= i < |init| && rule(init[i]) == Some((key, Fold(rule, init)[key]));
      assert tokens[i] == init[i];
    }
  }

  /** One more token: the map grows by that token's entry, if any. */
  lemma FoldPrefixStep(rule: EntryRule, tokens: seq<string>, k: nat)
    requires k < |tokens|
    ensures Fold(rule, tokens[..k + 1]) ==
      match rule(tokens[k])
      case None => Fold(rule, tokens[..k])
      case Some(kv) => Fold(rule, tokens[..k])[kv.0 := kv.1]
  {
    assert tokens[..k + 1][..k] == tokens[..k];
  }

  /** The map `parseTokenValue` returns for a token sequence. */
  function ParsedMap(tokens: seq<string>): map<string, string> {
    Fold(Entry, tokens)
  }

  /** Stored values hold no `"` at all, and neither keys nor values have leading or trailing white space. */
  lemma ParsedMapValues(tokens: seq<string>, key: string)
    requires key in ParsedMap(tokens)
    ensures '"' !in ParsedMap(tokens)[key] && IsTrimmed(ParsedMap(tokens)[key]) && IsTrimmed(key)
  {
    FoldValues(Entry, tokens, key);
    var i :| 0 <= i < |tokens| && Entry(tokens[i]) == Some((key, ParsedMap(tokens)[key]));
    EntryShape(tokens[i]);
  }

  /** `parseTokenValue`: the tokenizer loop filling a map. */
  method ParseTokenValue(token: string) returns (map_: map<string, string>)
    ensures map_ == ParsedMap(Tokenize(token))
  {
    var tokenizer := Tokenize(token);
    map_ := map[];
    var k := 0;
    while k < |tokenizer|
      invariant 0 <= k <= |tokenizer|
      invariant map_ == ParsedMap(tokenizer[..k])
    {
      FoldPrefixStep(Entry, tokenizer, k);
      var keyval := tokenizer[k];
      var entry := Entry(keyval);
      if entry.Some? {
        map_ := map_[entry.value.0 := entry.value.1];
      }
      k := k + 1;
    }
    assert tokenizer[..|tokenizer|] == tokenizer;
  }

  // ---------------------------------------------------------------------------
  // extract
  // ---------------------------------------------------------------------------

  /** `Map.get`: null for an absent key. */
  function Get(m: map<string, string>, key: string): (r: Option<string>)
    ensures r.Some? <==> key in m
  {
    if key in m then Some(m[key]) else None
  }

  /**
   * `extract`: no credentials without a `Digest` header; a CredentialsException
   * when `username` or `response` is missing or blank; otherwise the digest
   * credentials, whose method is the request's and whose optional fields are
   * the parsed values or null.
   */
  method Extract(extractor: DigestAuthExtractor, request: Request) returns (r: Result<Option<Credentials>>)
    ensures HeaderToken(request, extractor.headerName, extractor.prefixHeader).None? ==> r == Success(None)
    ensures HeaderToken(request, extractor.headerName, extractor.prefixHeader).Some? ==>
      var m := ParsedMap(Tokenize(HeaderToken(request, extractor.headerName, extractor.prefixHeader).value));
      if IsBlank(Get(m, "username")) || IsBlank(Get(m, "response")) then
        r == Failure(CredentialsError(BAD_FORMAT_MESSAGE))
      else
        r == Success(Some(DigestCredentials(
          m["response"], request.requestMethod, m["username"],
          Get(m, "realm"), Get(m, "nonce"), Get(m, "uri"), Get(m, "cnonce"), Get(m, "nc"), Get(m, "qop"))))
  {
    var credentials := HeaderToken(request, extractor.headerName, extractor.prefixHeader);
    if credentials.None? {
      return Success(None);
    }
    var token := credentials.value;
    var valueMap := ParseTokenValue(token);
    var username := Get(valueMap, "username");
    var response := Get(valueMap, "response");
    if IsBlank(username) || IsBlank(response) {
      return Failure(CredentialsError(BAD_FORMAT_MESSAGE));
    }
    var realm := Get(valueMap, "realm");
    var nonce := Get(valueMap, "nonce");
    var uri := Get(valueMap, "uri");
    var cnonce := Get(valueMap, "cnonce");
    var nc := Get(valueMap, "nc");
    var qop := Get(valueMap, "qop");
    var method_ := request.requestMethod;
    return Success(Some(DigestCredentials(response.value, method_, username.value, realm, nonce, uri, cnonce, nc, qop)));
  }
}
