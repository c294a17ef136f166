/** Access tokens: a JSON payload and its signature, both in URL-safe base64
    without padding, joined by a dot. */
module AccessToken {
  import opened Base64
  import opened Options
  import opened Outbound
  import opened Sequences
  import opened Text

  datatype Payload = Payload(sub: string, role: string, scope: seq<string>, iat: int, exp: int)
  datatype Decoded = Accepted(payload: Payload) | Rejected(reason: string)

  /** The signature of the secret, and JSON in UTF-8; `load` has no value on text
      that is not UTF-8 or not JSON. */
  datatype Crypto = Crypto(
    sign: string -> seq<Byte>,
    dump: Json -> seq<Byte>,
    load: seq<Byte> -> Option<Json>)

  const BAD_TYPE: string := "invalid payload type"
  const BAD_SUBJECT: string := "invalid token subject"
  const BAD_ROLE: string := "invalid token role"
  const BAD_SCOPE: string := "invalid token group scope"
  const BAD_TIMES: string := "invalid token timestamps"
  const BAD_FORMAT: string := "invalid token format"
  const BAD_SEGMENT: string := "invalid base64 token segment"
  const BAD_SIGNATURE: string := "invalid token signature"
  const BAD_PAYLOAD: string := "invalid token payload"
  const EXPIRED: string := "token expired"

  // ----------------------------------------------------------- group scopes

  /** The order of `sorted` on strings. */
  predicate Less(a: string, b: string) {
    b != "" && (a == "" || a[0] < b[0] || (a[0] == b[0] && Less(a[1..], b[1..])))
  }

  lemma {:induction false} LessIsTotal(a: string, b: string)
    ensures Less(a, b) || a == b || Less(b, a)
  {
    if a != "" && b != "" && a[0] == b[0] {
      LessIsTotal(a[1..], b[1..]);
      Uncons(a);
      Uncons(b);
    }
  }

  lemma {:induction false} LessIsTransitive(a: string, b: string, c: string)
    requires Less(a, b) && Less(b, c)
    ensures Less(a, c)
  {
    if a != "" && a[0] == b[0] == c[0] {
      LessIsTransitive(a[1..], b[1..], c[1..]);
    }
  }

  ghost predicate Increasing(s: seq<string>) {
    forall i, j :: 0 <= i < j < |s| ==> Less(s[i], s[j])
  }

  function Insert(x: string, s: seq<string>): seq<string> {
    if s == [] || Less(x, s[0]) then [x] + s
    else if x == s[0] then s
    else [s[0]] + Insert(x, s[1..])
  }

  /** `sorted(set(scope))`. */
  function SortedSet(scope: seq<string>): seq<string> {
    if scope == [] then [] else Insert(scope[0], SortedSet(scope[1..]))
  }

  function DropEmpty(s: seq<string>): seq<string> {
    if s == [] then [] else (if s[0] != "" then [s[0]] else []) + DropEmpty(s[1..])
  }

  /** The scope that a token grants: sorted, without duplicates or empty names. */
  function Granted(scope: seq<string>): seq<string> {
    DropEmpty(SortedSet(scope))
  }

  lemma {:induction false} InsertLaws(x: string, s: seq<string>)
    requires Increasing(s)
    ensures Increasing(Insert(x, s))
    ensures forall y :: y in Insert(x, s) <==> y == x || y in s
  {
    if s == [] {
    } else if Less(x, s[0]) {
      forall j | 0 < j < |s|
        ensures Less(x, s[j])
      {
        LessIsTransitive(x, s[0], s[j]);
      }
    } else if x != s[0] {
      var rest := s[1..];
      LessIsTotal(x, s[0]);
      InsertLaws(x, rest);
      forall y | y in Insert(x, rest)
        ensures Less(s[0], y)
      {
      }
      IncreasingCons(s[0], Insert(x, rest));
    }
  }

  lemma IncreasingCons(x: string, s: seq<string>)
    requires Increasing(s) && forall y :: y in s ==> Less(x, y)
    ensures Increasing([x] + s)
  {
  }

  lemma {:induction false} SortedSetLaws(scope: seq<string>)
    ensures Increasing(SortedSet(scope))
    ensures forall x :: x in SortedSet(scope) <==> x in scope
  {
    if scope != [] {
      SortedSetLaws(scope[1..]);
      InsertLaws(scope[0], SortedSet(scope[1..]));
    }
  }

  lemma {:induction false} DropEmptyLaws(s: seq<string>)
    requires Increasing(s)
    ensures Increasing(DropEmpty(s))
    ensures forall x :: x in DropEmpty(s) <==> x in s && x != ""
  {
    if s != [] {
      DropEmptyLaws(s[1..]);
      if s[0] != "" {
        IncreasingCons(s[0], DropEmpty(s[1..]));
      } else {
        Empty(DropEmpty(s[1..]));
      }
    }
  }

  /** A token grants exactly the non-empty names it was issued for, sorted. */
  lemma GrantedLaws(scope: seq<string>)
    ensures Increasing(Granted(scope))
    ensures forall x :: x in Granted(scope) <==> x in scope && x != ""
  {
    SortedSetLaws(scope);
    DropEmptyLaws(SortedSet(scope));
  }

  // ------------------------------------------------------------ the token

  function UrlEncode(b: seq<Byte>): string {
    StripPadding(Encode(b, UrlSafe))
  }

  function UrlDecode(s: string): Option<seq<Byte>> {
    Base64.Decode(Repad(s), UrlSafe, Lenient)
  }

  function AsJson(payload: Payload): Json {
    Obj(map["sub" := Str(payload.sub), "role" := Str(payload.role), "group_scope" := Arr(Strings(payload.scope)),
            "iat" := Num(payload.iat), "exp" := Num(payload.exp)])
  }

  function Lifetime(ttl: int): int {
    if ttl > 60 then ttl else 60
  }

  function Issued(user: string, role: string, scope: seq<string>, now: int, ttl: int): Payload {
    Payload(user, role, SortedSet(scope), now, now + Lifetime(ttl))
  }

  /** `issue_access_token` at a time in whole seconds. */
  function Issue(user: string, role: string, scope: seq<string>, now: int, ttl: int, c: Crypto): string {
    var part := UrlEncode(c.dump(AsJson(Issued(user, role, scope, now, ttl))));
    part + ['.'] + UrlEncode(c.sign(part))
  }

  /** Python's integers include the truth values. */
  function IntOf(value: Json): Option<int> {
    match value
    case Num(n) => Some(n)
    case Bool(b) => Some(if b then 1 else 0)
    case _ => None
  }

  function KeptTexts(items: seq<Json>): seq<string>
    requires forall i :: 0 <= i < |items| ==> items[i].Str?
  {
    if items == [] then []
    else (if items[0].s != "" then [items[0].s] else []) + KeptTexts(items[1..])
  }

  function Validate(value: Json): Decoded {
    if !value.Obj? then Rejected(BAD_TYPE)
    else
      var sub, role, scope := Get(value.fields, "sub"), Get(value.fields, "role"), Get(value.fields, "group_scope");
      var iat, exp := IntOf(Get(value.fields, "iat")), IntOf(Get(value.fields, "exp"));
      if !sub.Str? || sub.s == "" then Rejected(BAD_SUBJECT)
      else if !role.Str? || role.s == "" then Rejected(BAD_ROLE)
      else if !scope.Arr? || (exists i :: 0 <= i < |scope.items| && !scope.items[i].Str?) then
        Rejected(BAD_SCOPE)
      else if iat.None? || exp.None? then Rejected(BAD_TIMES)
      else Accepted(Payload(sub.s, role.s, KeptTexts(scope.items), iat.value, exp.value))
  }

  /** The last check: the expiry second itself is too late. */
  function Unexpired(result: Decoded, now: int): Decoded {
    if result.Accepted? && result.payload.exp <= now then Rejected(EXPIRED) else result
  }

  /** `decode_access_token`. */
  function Decode(token: string, now: int, c: Crypto): Decoded {
    var parts := SplitOn(Strip(token), '.');
    if |parts| != 2 then Rejected(BAD_FORMAT)
    else
      var actual, raw := UrlDecode(parts[1]), UrlDecode(parts[0]);
      if actual.None? then Rejected(BAD_SEGMENT)
      else if actual.value != c.sign(parts[0]) then Rejected(BAD_SIGNATURE)
      else if raw.None? then Rejected(BAD_SEGMENT)
      else if c.load(raw.value).None? then Rejected(BAD_PAYLOAD)
      else Unexpired(Validate(c.load(raw.value).value), now)
  }

  // ------------------------------------------------------------ round trip

  /** The unpadded text decodes to its bytes, contains no dot, and starts and ends
      with a visible character. */
  lemma UrlRoundTrip(b: seq<Byte>)
    ensures UrlDecode(UrlEncode(b)) == Some(b)
    ensures Plain(UrlEncode(b))
  {
    PaddingIsRestored(b, UrlSafe);
    DecodeInvertsEncode(b, UrlSafe, Lenient);
    DigitsArePlain(b, UrlSafe);
  }

  lemma TokenIsStripped(a: string, b: string)
    requires Plain(a) && Plain(b)
    ensures Stripped(a + ['.'] + b)
  {
    var token := a + ['.'] + b;
    assert token[0] == if a != "" then a[0] else '.';
    assert token[|token| - 1] == if b != "" then b[|b| - 1] else '.';
  }

  lemma TokenParts(a: string, b: string)
    requires Plain(a) && Plain(b)
    ensures SplitOn(Strip(a + ['.'] + b), '.') == [a, b]
  {
    TokenIsStripped(a, b);
    StripStripped(a + ['.'] + b);
    SplitAtFirst(a, '.', b);
    SplitWithout(b, '.');
  }

  lemma {:induction false} ScopeIsRead(scope: seq<string>)
    ensures KeptTexts(Strings(scope)) == DropEmpty(scope)
  {
    if scope != [] {
      assert Strings(scope)[1..] == Strings(scope[1..]);
      ScopeIsRead(scope[1..]);
    }
  }

  lemma ValidateReads(payload: Payload)
    requires payload.sub != ""
    ensures Validate(AsJson(payload))
         == if payload.role == "" then Rejected(BAD_ROLE)
            else Accepted(payload.(scope := DropEmpty(payload.scope)))
  {
    ScopeIsRead(payload.scope);
  }

  /** Two segments that decode, the second to the signature of the first, are read
      as the payload says. */
  lemma DecodeOfParts(a: string, b: string, raw: seq<Byte>, value: Json, now: int, c: Crypto)
    requires Plain(a) && Plain(b)
    requires UrlDecode(a) == Some(raw) && UrlDecode(b) == Some(c.sign(a)) && c.load(raw) == Some(value)
    ensures Decode(a + ['.'] + b, now, c) == Unexpired(Validate(value), now)
  {
    TokenParts(a, b);
  }

  /** A token issued for a user is accepted exactly when its role is not empty and
      it has not expired, and then returns the user, the role and the granted
      scope. A lifetime is at least one minute. */
  lemma DecodeInvertsIssue(user: string, role: string, scope: seq<string>, issued: int, ttl: int, now: int, c: Crypto)
    requires user != ""
    requires var json := AsJson(Issued(user, role, scope, issued, ttl)); c.load(c.dump(json)) == Some(json)
    ensures Decode(Issue(user, role, scope, issued, ttl, c), now, c)
         == if role == "" then Rejected(BAD_ROLE)
            else if now >= issued + Lifetime(ttl) then Rejected(EXPIRED)
            else Accepted(Payload(user, role, Granted(scope), issued, issued + Lifetime(ttl)))
    ensures Lifetime(ttl) >= 60 && Lifetime(ttl) >= ttl && (Lifetime(ttl) == 60 || Lifetime(ttl) == ttl)
  {
    var payload := Issued(user, role, scope, issued, ttl);
    var json := AsJson(payload);
    var part := UrlEncode(c.dump(json));
    UrlRoundTrip(c.dump(json));
    UrlRoundTrip(c.sign(part));
    DecodeOfParts(part, UrlEncode(c.sign(part)), c.dump(json), json, now, c);
    ValidateReads(payload);
  }

  predicate IsText(value: Json) {
    value.Str? && value.s != ""
  }

  predicate IsInteger(value: Json) {
    value.Num? || value.Bool?
  }

  /** A payload is valid exactly when it names a user and a role, its scope is a list of
      texts, and its times are integers. */
  lemma ValidateIff(value: Json)
    ensures Validate(value).Accepted?
       <==> && value.Obj? && IsText(Get(value.fields, "sub")) && IsText(Get(value.fields, "role"))
            && Get(value.fields, "group_scope").Arr?
            && (forall item :: item in Get(value.fields, "group_scope").items ==> item.Str?)
            && IsInteger(Get(value.fields, "iat")) && IsInteger(Get(value.fields, "exp"))
    ensures Validate(value).Accepted? ==>
              var payload := Validate(value).payload;
              && Str(payload.sub) == Get(value.fields, "sub") && Str(payload.role) == Get(value.fields, "role")
              && IntOf(Get(value.fields, "iat")) == Some(payload.iat)
              && IntOf(Get(value.fields, "exp")) == Some(payload.exp)
              && forall x :: x in payload.scope <==> x != "" && Str(x) in Get(value.fields, "group_scope").items
  {
    if Validate(value).Accepted? {
      KeptTextsAre(Get(value.fields, "group_scope").items);
    }
  }

  lemma {:induction false} KeptTextsAre(items: seq<Json>)
    requires forall i :: 0 <= i < |items| ==> items[i].Str?
    ensures forall x :: x in KeptTexts(items) <==> x != "" && Str(x) in items
  {
    if items != [] {
      KeptTextsAre(items[1..]);
      Uncons(items);
    }
  }

  lemma TextsInScope(token: string, a: string, b: string)
    requires token == a + ['.'] + b && '.' !in a && '.' !in b
    ensures SplitOn(token, '.') == [a, b]
  {
    SplitAtFirst(a, '.', b);
    SplitWithout(b, '.');
  }

  /** Every correctly signed token with a valid payload is accepted until it expires. */
  lemma SignedIsAccepted(token: string, a: string, b: string, value: Json, now: int, c: Crypto)
    requires Strip(token) == a + ['.'] + b && '.' !in a && '.' !in b
    requires UrlDecode(b) == Some(c.sign(a)) && UrlDecode(a).Some? && c.load(UrlDecode(a).value) == Some(value)
    requires Validate(value).Accepted?
    ensures Decode(token, now, c)
         == if Validate(value).payload.exp > now then Validate(value) else Rejected("token expired")
  {
    TextsInScope(Strip(token), a, b);
  }

  /** Why a token is rejected before its payload is read. */
  lemma RejectedBefore(token: string, a: string, b: string, now: int, c: Crypto)
    requires Strip(token) == a + ['.'] + b && '.' !in a && '.' !in b
    ensures UrlDecode(b) == None ==> Decode(token, now, c) == Rejected("invalid base64 token segment")
    ensures UrlDecode(b).Some? && UrlDecode(b) != Some(c.sign(a)) ==>
              Decode(token, now, c) == Rejected("invalid token signature")
  {
    TextsInScope(Strip(token), a, b);
  }

  /** A token that is not two parts around a dot. */
  lemma RejectedFormat(token: string, now: int, c: Crypto)
    requires forall a, b :: Strip(token) == a + ['.'] + b ==> '.' in a || '.' in b
    ensures Decode(token, now, c) == Rejected("invalid token format")
  {
    var parts := SplitOn(Strip(token), '.');
    if |parts| == 2 {
      SplitInTwo(Strip(token), '.');
      NoDotInPart(Strip(token));
    }
  }

  lemma NoDotInPart(text: string)
    requires |SplitOn(text, '.')| == 2
    ensures '.' !in SplitOn(text, '.')[0] && '.' !in SplitOn(text, '.')[1]
  {
    var i := IndexOf(text, '.');
    SplitInOne(text[i + 1..], '.');
    var j := IndexOf(text[i + 1..], '.');
    assert text[i + 1..][..|text| - i - 1] == text[i + 1..];
  }

  lemma {:induction false} KeptTextsAreNotEmpty(items: seq<Json>)
    requires forall i :: 0 <= i < |items| ==> items[i].Str?
    ensures "" !in KeptTexts(items)
  {
    if items != [] {
      KeptTextsAreNotEmpty(items[1..]);
    }
  }

  /** An accepted token is two parts around a dot, the second of which decodes to
      the signature of the first; it names a user and a role, grants no empty
      name, and has not expired. */
  lemma AcceptedIsSigned(token: string, now: int, c: Crypto)
    requires Decode(token, now, c).Accepted?
    ensures exists a, b :: Strip(token) == a + ['.'] + b && UrlDecode(b) == Some(c.sign(a)) && UrlDecode(a).Some?
                        && c.load(UrlDecode(a).value).Some?
                        && Validate(c.load(UrlDecode(a).value).value) == Decode(token, now, c)
    ensures var payload := Decode(token, now, c).payload;
            payload.sub != "" && payload.role != "" && "" !in payload.scope && payload.exp > now
  {
    var parts := SplitOn(Strip(token), '.');
    SplitInTwo(Strip(token), '.');
    var a, b := parts[0], parts[1];
    assert Strip(token) == a + ['.'] + b && UrlDecode(b) == Some(c.sign(a));
    var value := c.load(UrlDecode(a).value).value;
    KeptTextsAreNotEmpty(Get(value.fields, "group_scope").items);
  }
}
