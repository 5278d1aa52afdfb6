/** Stored credentials for outside systems: the rules for a new one, the payload kept in the secret store,
    and rotations of its values. */
module Connections {
  import opened Decimal
  import opened Runs
  import opened Sorting
  import opened Text
  import opened Wrappers

  datatype Scope = Personal | Group | Managed

  datatype NewConnection = NewConnection(
    name: string, kind: string, scope: Scope, ownerGroup: Option<string>, usableBy: seq<string>,
    config: map<string, string>, secret: map<string, string>, refreshInterval: Option<string>)

  const MAX_VALUE_BYTES := 4096
  const MAX_KEYS := 16
  const MAX_SETTINGS := 32
  const MAX_SETTING_BYTES := 512

  const TYPES := {"postgresql", "mysql", "sqlserver", "oracle", "rest-api", "s3", "kafka", "sftp", "generic"}
  const SECRET_WORDS := ["password", "passwd", "passphrase", "secret", "token", "credential"]

  // ----- names -----

  /** `str::len`: the bytes of the UTF-8 encoding. */
  function ByteLength(s: string): nat {
    if s == "" then 0
    else
      var c := s[0] as int;
      (if c < 0x80 then 1 else if c < 0x800 then 2 else if c < 0x1_0000 then 3 else 4) + ByteLength(s[1..])
  }

  predicate Lower(c: char) { 'a' <= c <= 'z' }
  predicate Letter(c: char) { Lower(c) || 'A' <= c <= 'Z' }
  predicate Alphanumeric(c: char) { Letter(c) || IsDigit(c) }
  predicate KeyChar(c: char) { Alphanumeric(c) || c == '_' }
  predicate SettingChar(c: char) { KeyChar(c) || c == '.' || c == '-' }

  predicate NameOk(s: string) {
    && s != "" && ByteLength(s) <= 40 && Lower(s[0]) && s[|s| - 1] != '-'
    && forall i :: 0 <= i < |s| ==> Lower(s[i]) || IsDigit(s[i]) || s[i] == '-'
  }

  predicate KeyOk(s: string) {
    s != "" && ByteLength(s) <= 63 && Letter(s[0]) && forall i :: 0 <= i < |s| ==> KeyChar(s[i])
  }

  predicate SettingNameOk(s: string) {
    s != "" && ByteLength(s) <= 63 && Letter(s[0]) && forall i :: 0 <= i < |s| ==> SettingChar(s[i])
  }

  predicate GroupOk(s: string) {
    s != "" && ByteLength(s) <= 64 && Alphanumeric(s[0]) && forall i :: 0 <= i < |s| ==> SettingChar(s[i])
  }

  predicate SecretLike(s: string) {
    exists i :: 0 <= i < |SECRET_WORDS| && Contains(LowerAscii(s), SECRET_WORDS[i])
  }

  // ----- the same names by their alphabets -----

  const LOWER := "abcdefghijklmnopqrstuvwxyz"
  const UPPER := "ABCDEFGHIJKLMNOPQRSTUVWXYZ"
  const DIGITS := "0123456789"

  lemma InAlphabet(c: char)
    ensures Lower(c) <==> c in LOWER
    ensures Letter(c) <==> c in LOWER + UPPER
    ensures Alphanumeric(c) <==> c in LOWER + UPPER + DIGITS
    ensures IsDigit(c) <==> c in DIGITS
  {
    assert Lower(c) <==> c in LOWER by {
      LowerIn(c);
    }
    assert 'A' <= c <= 'Z' <==> c in UPPER by {
      UpperIn(c);
    }
    assert IsDigit(c) <==> c in DIGITS by {
      DigitIn(c);
    }
    AddUp(c, LOWER, UPPER, DIGITS);
  }

  lemma AddUp(c: char, a: string, b: string, d: string)
    ensures c in a + b <==> c in a || c in b
    ensures c in a + b + d <==> c in a || c in b || c in d
  {
  }

  lemma LowerIn(c: char)
    ensures Lower(c) <==> c in LOWER
  {
    assert Lower(c) ==> LOWER[c as int - 'a' as int] == c;
  }

  lemma UpperIn(c: char)
    ensures 'A' <= c <= 'Z' <==> c in UPPER
  {
    assert 'A' <= c <= 'Z' ==> UPPER[c as int - 'A' as int] == c;
  }

  lemma DigitIn(c: char)
    ensures IsDigit(c) <==> c in DIGITS
  {
    assert IsDigit(c) ==> DIGITS[c as int - '0' as int] == c;
  }

  /** A text of these characters has one byte each. */
  lemma {:induction false} PlainBytes(s: string)
    requires forall i :: 0 <= i < |s| ==> SettingChar(s[i])
    ensures ByteLength(s) == |s|
  {
    if s != "" {
      assert SettingChar(s[0]);
      PlainBytes(s[1..]);
    }
  }

  /** The texts over these two alphabets, the first of them for the first character, with at most `max` characters. */
  ghost predicate NameOver(s: string, first: string, all: string, max: nat) {
    1 <= |s| <= max && s[0] in first && forall i :: 0 <= i < |s| ==> s[i] in all
  }

  /** The accepted names, field names, setting names and group names, by their alphabets and lengths. */
  lemma NamesExactly(s: string)
    ensures NameOk(s) <==> NameOver(s, LOWER, LOWER + DIGITS + "-", 40) && s[|s| - 1] != '-'
    ensures KeyOk(s) <==> NameOver(s, LOWER + UPPER, LOWER + UPPER + DIGITS + "_", 63)
    ensures SettingNameOk(s) <==> NameOver(s, LOWER + UPPER, LOWER + UPPER + DIGITS + "_.-", 63)
    ensures GroupOk(s) <==> NameOver(s, LOWER + UPPER + DIGITS, LOWER + UPPER + DIGITS + "_.-", 64)
  {
    hide ByteLength, Lower, Letter, Alphanumeric, IsDigit;
    forall c: char
      ensures KeyChar(c) <==> c in LOWER + UPPER + DIGITS + "_"
      ensures SettingChar(c) <==> c in LOWER + UPPER + DIGITS + "_.-"
      ensures (Lower(c) || IsDigit(c) || c == '-') <==> c in LOWER + DIGITS + "-"
      ensures Lower(c) || IsDigit(c) || c == '-' || KeyChar(c) ==> SettingChar(c)
      ensures (Lower(c) <==> c in LOWER) && (Letter(c) <==> c in LOWER + UPPER)
    {
      InAlphabet(c);
      LowerIsLetter(c);
    }
    if s != "" {
      InAlphabet(s[0]);
    }
    if forall i :: 0 <= i < |s| ==> SettingChar(s[i]) {
      PlainBytes(s);
    }
  }

  lemma LowerIsLetter(c: char)
    ensures Lower(c) || IsDigit(c) ==> Alphanumeric(c)
  {
  }

  /** A name looks like a secret exactly when, in lower case, it is some text, one of the words, and some text. */
  lemma SecretLikeExactly(s: string)
    ensures SecretLike(s) <==>
      exists w, before, after ::
        && w in ["password", "passwd", "passphrase", "secret", "token", "credential"]
        && LowerAscii(s) == before + w + after
  {
    forall w ensures Contains(LowerAscii(s), w) <==> exists before, after :: LowerAscii(s) == before + w + after {
      ContainsExactly(LowerAscii(s), w);
    }
    if i :| 0 <= i < |SECRET_WORDS| && Contains(LowerAscii(s), SECRET_WORDS[i]) {
      assert SECRET_WORDS[i] in SECRET_WORDS;
    }
  }

  /** Section 3 of RFC 3629: the bytes of one character. */
  function Utf8(c: char): seq<nat> {
    var n := c as nat;
    if n <= 0x7F then [n]
    else if n <= 0x7FF then [0xC0 + n / 64, 0x80 + n % 64]
    else if n <= 0xFFFF then [0xE0 + n / 4096, 0x80 + n / 64 % 64, 0x80 + n % 64]
    else [0xF0 + n / 262144, 0x80 + n / 4096 % 64, 0x80 + n / 64 % 64, 0x80 + n % 64]
  }

  function Utf8Text(s: string): seq<nat> {
    if s == "" then [] else Utf8(s[0]) + Utf8Text(s[1..])
  }

  /** A length limit counts the bytes of the UTF-8 text. */
  lemma {:induction false} BytesCounted(s: string)
    ensures ByteLength(s) == |Utf8Text(s)|
  {
    if s != "" {
      BytesCounted(s[1..]);
    }
  }

  /** Up to four digits and `m` or `h`, together one minute to one day. */
  predicate RefreshOk(s: string) {
    && s != "" && (s[|s| - 1] == 'm' || s[|s| - 1] == 'h')
    && var digits := s[..|s| - 1];
    && 1 <= |digits| <= 4 && AllDigits(digits)
    && 1 <= NumberOf(digits) * (if s[|s| - 1] == 'm' then 1 else 60) <= 1440
  }

  /** A number of minutes or hours written with at most four digits, leading zeros allowed. */
  ghost predicate Interval(s: string, zeros: nat, n: nat, unit: char) {
    && (unit == 'm' || unit == 'h') && zeros + |Digits(n)| <= 4
    && s == Zeros(zeros) + Digits(n) + [unit]
    && 1 <= n * (if unit == 'm' then 1 else 60) <= 1440
  }

  lemma IntervalAccepted(s: string, zeros: nat, n: nat, unit: char)
    requires Interval(s, zeros, n, unit)
    ensures RefreshOk(s)
  {
    DigitsCanonical(n);
    ZerosKeepNumber(zeros, Digits(n));
    assert s[..|s| - 1] == Zeros(zeros) + Digits(n);
  }

  /** The texts accepted are exactly those: one minute to one day, in either unit. */
  lemma RefreshExactly(s: string)
    ensures RefreshOk(s) <==> exists zeros, n, unit :: Interval(s, zeros, n, unit)
  {
    if RefreshOk(s) {
      var digits, unit := s[..|s| - 1], s[|s| - 1];
      var zeros := ZerosThenDigits(digits);
      assert s == digits + [unit];
      assert Interval(s, zeros, NumberOf(digits), unit);
    }
    if zeros, n, unit :| Interval(s, zeros, n, unit) {
      IntervalAccepted(s, zeros, n, unit);
    }
  }

  // ----- what each type needs -----

  predicate TypeRules(kind: string, settings: set<string>, keys: set<string>) {
    if kind in {"postgresql", "mysql", "sqlserver", "oracle"} then
      "host" in settings && "user" in keys && "password" in keys
    else if kind == "rest-api" then
      "baseUrl" in settings && ("token" in keys || ("clientId" in keys && "clientSecret" in keys))
    else if kind == "s3" then
      "bucket" in settings && "accessKeyId" in keys && "secretAccessKey" in keys
    else if kind == "sftp" then
      "host" in settings && "user" in keys && ("password" in keys || "privateKey" in keys)
    else if kind == "kafka" then
      "bootstrapServers" in settings
    else
      true
  }

  /** A set of settings and secret fields that is enough for these types. */
  datatype Profile = Profile(kinds: set<string>, settings: set<string>, keys: set<string>)

  const PROFILES := [
    Profile({"postgresql", "mysql", "sqlserver", "oracle"}, {"host"}, {"user", "password"}),
    Profile({"rest-api"}, {"baseUrl"}, {"token"}),
    Profile({"rest-api"}, {"baseUrl"}, {"clientId", "clientSecret"}),
    Profile({"s3"}, {"bucket"}, {"accessKeyId", "secretAccessKey"}),
    Profile({"kafka"}, {"bootstrapServers"}, {}),
    Profile({"sftp"}, {"host"}, {"user", "password"}),
    Profile({"sftp"}, {"host"}, {"user", "privateKey"}),
    Profile({"generic"}, {}, {})]

  ghost predicate MeetsProfile(p: Profile, kind: string, settings: set<string>, keys: set<string>) {
    kind in p.kinds && p.settings <= settings && p.keys <= keys
  }

  /** A connection of a known type has what its type needs exactly when it has all of one of the type's profiles. */
  lemma TypeRulesExactly(kind: string, settings: set<string>, keys: set<string>)
    requires kind in TYPES
    ensures TypeRules(kind, settings, keys)
       <==> exists i :: 0 <= i < |PROFILES| && MeetsProfile(PROFILES[i], kind, settings, keys)
  {
    if TypeRules(kind, settings, keys) {
      var i := if kind in {"postgresql", "mysql", "sqlserver", "oracle"} then 0
        else if kind == "rest-api" then (if "token" in keys then 1 else 2)
        else if kind == "s3" then 3
        else if kind == "kafka" then 4
        else if kind == "sftp" then (if "password" in keys then 5 else 6)
        else 7;
      assert MeetsProfile(PROFILES[i], kind, settings, keys);
    }
  }

  // ----- the rules for a new connection -----

  datatype Problem =
    | BadName | BadType | BadScope
    | TooManySettings | SettingName(key: string) | LooksSecret(key: string) | SettingTooLong(key: string)
    | FieldCount | FieldName(key: string) | FieldEmpty(key: string) | FieldTooLong(key: string)
    | BadRefresh | MissingForType

  predicate ScopeOk(req: NewConnection) {
    match req.scope
    case Personal => req.ownerGroup.None? && req.usableBy == []
    case Group => req.ownerGroup.Some? && GroupOk(req.ownerGroup.value) && req.usableBy == []
    case Managed =>
      && req.ownerGroup.None? && 1 <= |req.usableBy| <= 20
      && forall i :: 0 <= i < |req.usableBy| ==> GroupOk(req.usableBy[i])
  }

  function SettingProblem(k: string, v: string): Option<Problem> {
    if !SettingNameOk(k) then Some(SettingName(k))
    else if SecretLike(k) then Some(LooksSecret(k))
    else if ByteLength(v) > MAX_SETTING_BYTES then Some(SettingTooLong(k))
    else None
  }

  predicate ValueOk(v: string) {
    v != "" && ByteLength(v) <= MAX_VALUE_BYTES
  }

  function FieldProblem(k: string, v: string): Option<Problem> {
    if !KeyOk(k) then Some(FieldName(k))
    else if v == "" then Some(FieldEmpty(k))
    else if ByteLength(v) > MAX_VALUE_BYTES then Some(FieldTooLong(k))
    else None
  }

  predicate SettingsOk(config: map<string, string>) {
    && |config| <= MAX_SETTINGS
    && forall k :: k in config ==> SettingNameOk(k) && !SecretLike(k) && ByteLength(config[k]) <= MAX_SETTING_BYTES
  }

  predicate FieldsOk(secret: map<string, string>) {
    1 <= |secret| <= MAX_KEYS && forall k :: k in secret ==> KeyOk(k) && ValueOk(secret[k])
  }

  predicate RefreshIntervalOk(req: NewConnection) {
    req.refreshInterval.Some? ==> RefreshOk(req.refreshInterval.value)
  }

  /** What a connection must meet, without an order among the rules. */
  predicate Acceptable(req: NewConnection) {
    && NameOk(req.name) && req.kind in TYPES && ScopeOk(req)
    && SettingsOk(req.config) && FieldsOk(req.secret) && RefreshIntervalOk(req)
    && TypeRules(req.kind, req.config.Keys, req.secret.Keys)
  }

  /** The least key of the map with a problem, and its problem. */
  ghost predicate FirstBad<E(!new)>(m: map<string, string>, check: (string, string) -> Option<E>, p: E) {
    exists k :: k in m && check(k, m[k]) == Some(p)
                && forall j :: j in m && check(j, m[j]).Some? ==> Le(k, j)
  }

  /** The problem reported is the first one, in the order of the rules and of the keys. */
  ghost predicate Reports(req: NewConnection, p: Problem) {
    if !NameOk(req.name) then p == BadName
    else if req.kind !in TYPES then p == BadType
    else if !ScopeOk(req) then p == BadScope
    else if |req.config| > MAX_SETTINGS then p == TooManySettings
    else if !SettingsOk(req.config) then FirstBad(req.config, SettingProblem, p)
    else if !(1 <= |req.secret| <= MAX_KEYS) then p == FieldCount
    else if !FieldsOk(req.secret) then FirstBad(req.secret, FieldProblem, p)
    else if !RefreshIntervalOk(req) then p == BadRefresh
    else p == MissingForType && !TypeRules(req.kind, req.config.Keys, req.secret.Keys)
  }

  method CheckEntries<E(!new)>(m: map<string, string>, check: (string, string) -> Option<E>) returns (problem: Option<E>)
    ensures problem.None? <==> forall k :: k in m ==> check(k, m[k]).None?
    ensures problem.Some? ==> FirstBad(m, check, problem.value)
  {
    hide Le, Ascending;
    var keys := Ascending(m.Keys);
    AscendingIsSorted(m.Keys);
    for i := 0 to |keys|
      invariant forall j :: 0 <= j < i ==> check(keys[j], m[keys[j]]).None?
    {
      var k := keys[i];
      problem := check(k, m[k]);
      if problem.Some? {
        LeTotal(k, k);
        forall j | j in m && check(j, m[j]).Some? ensures Le(k, j) {
          assert j in keys;
          var x :| 0 <= x < |keys| && keys[x] == j;
          assert x == i || i < x;
        }
        return problem;
      }
    }
    forall k | k in m ensures check(k, m[k]).None? {
      assert k in keys;
    }
    return None;
  }

  /** A new connection is accepted exactly when it meets every rule; otherwise the first problem is named. */
  method ValidateNew(req: NewConnection) returns (problem: Option<Problem>)
    ensures problem.None? <==> Acceptable(req)
    ensures problem.Some? ==> Reports(req, problem.value)
  {
    hide NameOk, KeyOk, SettingNameOk, GroupOk, SecretLike, ByteLength, RefreshOk, TypeRules, FirstBad;
    if !NameOk(req.name) {
      return Some(BadName);
    }
    if req.kind !in TYPES {
      return Some(BadType);
    }
    match req.scope {
      case Personal =>
        if req.ownerGroup.Some? || req.usableBy != [] {
          return Some(BadScope);
        }
      case Group =>
        if req.ownerGroup.None? || !GroupOk(req.ownerGroup.value) || req.usableBy != [] {
          return Some(BadScope);
        }
      case Managed =>
        if req.ownerGroup.Some? || req.usableBy == [] || |req.usableBy| > 20 || exists g :: g in req.usableBy && !GroupOk(g) {
          return Some(BadScope);
        }
    }
    if |req.config| > MAX_SETTINGS {
      return Some(TooManySettings);
    }
    problem := CheckEntries(req.config, SettingProblem);
    if problem.Some? {
      return;
    }
    if |req.secret| == 0 || |req.secret| > MAX_KEYS {
      return Some(FieldCount);
    }
    problem := CheckEntries(req.secret, FieldProblem);
    if problem.Some? {
      return;
    }
    if req.refreshInterval.Some? && !RefreshOk(req.refreshInterval.value) {
      return Some(BadRefresh);
    }
    return if TypeRules(req.kind, req.config.Keys, req.secret.Keys) then None else Some(MissingForType);
  }

  lemma FirstBadIsOne<E(!new)>(m: map<string, string>, check: (string, string) -> Option<E>, p: E, q: E)
    requires FirstBad(m, check, p) && FirstBad(m, check, q)
    ensures p == q
  {
    var k :| k in m && check(k, m[k]) == Some(p) && forall j :: j in m && check(j, m[j]).Some? ==> Le(k, j);
    var l :| l in m && check(l, m[l]) == Some(q) && forall j :: j in m && check(j, m[j]).Some? ==> Le(l, j);
    LeAntisymmetric(k, l);
  }

  /** There is only one problem to report: the rules leave no choice. */
  lemma OneProblem(req: NewConnection, p: Problem, q: Problem)
    requires Reports(req, p) && Reports(req, q)
    ensures p == q
  {
    if FirstBad(req.config, SettingProblem, p) && FirstBad(req.config, SettingProblem, q) {
      FirstBadIsOne(req.config, SettingProblem, p, q);
    } else if FirstBad(req.secret, FieldProblem, p) && FirstBad(req.secret, FieldProblem, q) {
      FirstBadIsOne(req.secret, FieldProblem, p, q);
    }
  }

  // ----- what the store keeps beside the values, and what a listing reads from it -----

  const PREFIX := "config."

  function SettingKey(c: string): string {
    PREFIX + c
  }

  /** `str::strip_prefix`. */
  function Unprefixed(k: string): Option<string> {
    if PREFIX <= k then Some(k[|PREFIX|..]) else None
  }

  lemma UnprefixedKey(c: string)
    ensures Unprefixed(SettingKey(c)) == Some(c)
  {
  }

  lemma KeyOfUnprefixed(k: string)
    ensures Unprefixed(k).Some? ==> SettingKey(Unprefixed(k).value) == k
    ensures Unprefixed("type").None? && Unprefixed("keys").None?
  {
    assert "type"[0] == 't' && "keys"[0] == 'k' && PREFIX[0] == 'c';
  }

  predicate IsSetting(k: string, names: set<string>) {
    Unprefixed(k).Some? && Unprefixed(k).value in names
  }

  /** The metadata: the type, the names of the fields, and some of the settings under a prefix. */
  ghost predicate DescribesPart(meta: map<string, string>, req: NewConnection, names: set<string>) {
    && names <= req.config.Keys
    && "type" in meta && meta["type"] == req.kind
    && "keys" in meta && meta["keys"] == JoinWith(Ascending(req.secret.Keys), ',')
    && (forall k :: k in meta && k != "type" && k != "keys" ==> IsSetting(k, names))
    && forall k :: IsSetting(k, names) ==> k in meta && meta[k] == req.config[Unprefixed(k).value]
  }

  /** The type, the names of the fields, and all the settings. */
  ghost predicate Describes(meta: map<string, string>, req: NewConnection) {
    DescribesPart(meta, req, req.config.Keys)
  }

  lemma PayloadStep(meta: map<string, string>, req: NewConnection, names: set<string>, c: string)
    requires DescribesPart(meta, req, names) && c in req.config
    ensures DescribesPart(meta[SettingKey(c) := req.config[c]], req, names + {c})
  {
    UnprefixedKey(c);
    KeyOfUnprefixed("type");
    forall k ensures Unprefixed(k) == Some(c) ==> k == SettingKey(c) {
      KeyOfUnprefixed(k);
    }
  }

  method StorePayload(req: NewConnection) returns (fields: map<string, string>, meta: map<string, string>)
    ensures fields == req.secret && Describes(meta, req)
  {
    fields := req.secret;
    KeyOfUnprefixed("type");
    meta := map["type" := req.kind];
    meta := meta["keys" := JoinWith(Ascending(req.secret.Keys), ',')];
    var names := Ascending(req.config.Keys);
    ghost var done: set<string> := {};
    for i := 0 to |names|
      invariant forall c :: c in done <==> c in names[..i]
      invariant DescribesPart(meta, req, done)
    {
      var c := names[i];
      PayloadStep(meta, req, done, c);
      meta := meta[SettingKey(c) := req.config[c]];
      done := done + {c};
    }
    assert names[..|names|] == names;
    assert done == req.config.Keys;
  }

  datatype View = View(kind: string, config: map<string, string>, secretKeys: seq<string>)

  function NonEmpty(parts: seq<string>): seq<string> {
    if parts == [] then [] else (if parts[0] == "" then [] else [parts[0]]) + NonEmpty(parts[1..])
  }

  /** The field names the metadata lists. */
  function KeyNames(meta: map<string, string>): seq<string> {
    if "keys" in meta then NonEmpty(SplitOn(meta["keys"], ',')) else []
  }

  function SettingsOf(meta: map<string, string>): map<string, string> {
    var names := set k | k in meta && Unprefixed(k).Some? :: Unprefixed(k).value;
    forall c | c in names ensures SettingKey(c) in meta {
      var k :| k in meta && Unprefixed(k) == Some(c);
      KeyOfUnprefixed(k);
    }
    map c | c in names :: meta[SettingKey(c)]
  }

  function ViewFromStore(meta: map<string, string>): View {
    View(if "type" in meta then meta["type"] else "", SettingsOf(meta), KeyNames(meta))
  }

  lemma {:induction false} NonEmptyKeeps(parts: seq<string>)
    requires "" !in parts
    ensures NonEmpty(parts) == parts
  {
    if parts != [] {
      NonEmptyKeeps(parts[1..]);
      Uncons(parts);
    }
  }

  lemma KeyNamesBack(secret: map<string, string>)
    requires FieldsOk(secret)
    ensures NonEmpty(SplitOn(JoinWith(Ascending(secret.Keys), ','), ',')) == Ascending(secret.Keys)
  {
    var names := Ascending(secret.Keys);
    AscendingIsSorted(secret.Keys);
    assert |names| == |secret|;
    forall n | n in names ensures Without(n, ',') && n != "" {
      assert KeyOk(n);
    }
    SplitUndoesJoin(names, ',');
    NonEmptyKeeps(names);
  }

  lemma SettingsBack(meta: map<string, string>, req: NewConnection)
    requires Describes(meta, req)
    ensures SettingsOf(meta) == req.config
  {
    KeyOfUnprefixed("type");
    var found := SettingsOf(meta);
    forall c ensures c in found <==> c in req.config {
      UnprefixedKey(c);
      if c in req.config {
        assert IsSetting(SettingKey(c), req.config.Keys);
      }
    }
    forall c | c in req.config ensures found[c] == req.config[c] {
      UnprefixedKey(c);
      assert IsSetting(SettingKey(c), req.config.Keys);
    }
  }

  /** A listing shows exactly the type, the settings and the sorted field names that were stored. */
  lemma ViewUndoesStore(meta: map<string, string>, req: NewConnection)
    requires Describes(meta, req) && FieldsOk(req.secret)
    ensures ViewFromStore(meta) == View(req.kind, req.config, Ascending(req.secret.Keys))
  {
    SettingsBack(meta, req);
    KeyNamesBack(req.secret);
  }

  /** The field names a rotation may name. */
  function KeySet(meta: map<string, string>): set<string> {
    set k | k in KeyNames(meta)
  }

  lemma StoredKeys(meta: map<string, string>, req: NewConnection)
    requires Describes(meta, req) && FieldsOk(req.secret)
    ensures KeySet(meta) == req.secret.Keys
  {
    ViewUndoesStore(meta, req);
    assert KeyNames(meta) == ViewFromStore(meta).secretKeys;
  }

  // ----- rotations -----

  datatype Refusal = NothingToRotate | UnknownField(key: string) | BadValue(key: string) | NotEveryField | Unreadable

  ghost predicate PatchOk(keys: set<string>, patch: map<string, string>) {
    patch.Keys != {} && patch.Keys <= keys && forall k :: k in patch ==> ValueOk(patch[k])
  }

  function PatchProblem(keys: set<string>, k: string, v: string): Option<Refusal> {
    if k !in keys then Some(UnknownField(k)) else if !ValueOk(v) then Some(BadValue(k)) else None
  }

  function PatchCheck(keys: set<string>): (string, string) -> Option<Refusal> {
    (k, v) => PatchProblem(keys, k, v)
  }

  /** The refusal is the first one, in the order of the rules and of the keys. */
  ghost predicate RotationReports(scope: Scope, keys: set<string>, patch: map<string, string>, e: Refusal) {
    if patch == map[] then e == NothingToRotate
    else if !PatchOk(keys, patch) then FirstBad(patch, PatchCheck(keys), e)
    else e == if scope.Managed? then NotEveryField else Unreadable
  }

  /** A rotation is accepted exactly under these conditions, and then it sends every field (for a managed
      connection, whose values nobody can read) or overlays the current ones. */
  method MergeRotation(scope: Scope, existing: Option<map<string, string>>, keys: set<string>, patch: map<string, string>)
    returns (r: Result<map<string, string>, Refusal>)
    ensures r.Ok? <==> PatchOk(keys, patch) && (if scope.Managed? then patch.Keys == keys else existing.Some?)
    ensures r.Ok? ==> r.value == if scope.Managed? then patch else existing.value + patch
    ensures r.Err? ==> RotationReports(scope, keys, patch, r.error)
  {
    if |patch| == 0 {
      return Err(NothingToRotate);
    }
    var problem := CheckEntries(patch, PatchCheck(keys));
    assert problem.None? <==> PatchOk(keys, patch) by {
      assert forall k :: k in patch ==> (PatchCheck(keys)(k, patch[k]).None? <==> k in keys && ValueOk(patch[k]));
    }
    if problem.Some? {
      return Err(problem.value);
    }
    match scope {
      case Managed =>
        SameSizeIsWhole(patch.Keys, keys);
        if |patch| != |keys| {
          return Err(NotEveryField);
        }
        return Ok(patch);
      case _ =>
        match existing {
          case Some(current) => return Ok(current + patch);
          case None => return Err(Unreadable);
        }
    }
  }

  /** There is only one refusal to report. */
  lemma OneRefusal(scope: Scope, keys: set<string>, patch: map<string, string>, e: Refusal, f: Refusal)
    requires RotationReports(scope, keys, patch, e) && RotationReports(scope, keys, patch, f)
    ensures e == f
  {
    if patch != map[] && !PatchOk(keys, patch) {
      FirstBadIsOne(patch, PatchCheck(keys), e, f);
    }
  }

  /** A part of a finite set is the whole exactly when it is as large. */
  lemma {:induction false} SameSizeIsWhole(part: set<string>, whole: set<string>)
    requires part <= whole
    ensures part == whole <==> |part| == |whole|
    decreases |part|
  {
    if part == {} {
      assert |whole| == 0 ==> whole == {};
    } else {
      var x :| x in part;
      SameSizeIsWhole(part - {x}, whole - {x});
      assert part == (part - {x}) + {x} && whole == (whole - {x}) + {x};
    }
  }

  // ----- the stored credential -----

  /** What a run of rotations must keep. */
  ghost predicate Sound(req: NewConnection, fields: map<string, string>) {
    && fields.Keys == req.secret.Keys
    && forall k :: k in fields ==> ValueOk(fields[k])
  }

  lemma MergedIsSound(req: NewConnection, fields: map<string, string>, patch: map<string, string>, whole: bool)
    requires Sound(req, fields) && PatchOk(req.secret.Keys, patch) && (whole ==> patch.Keys == req.secret.Keys)
    ensures Sound(req, fields + patch) && (whole ==> patch == fields + patch)
  {
  }

  /** How a request to the store ends: answered; its answer lost, though it took effect; or rejected. */
  datatype Fate = Answered | AnswerLost | Rejected

  /** The metadata that two requests leave: the second is sent only when the first was answered, and only when
      there is metadata to write. */
  function MetaAfter(meta: map<string, string>, newMeta: map<string, string>, first: Fate, second: Fate): map<string, string> {
    if first.Answered? && newMeta != map[] && !second.Rejected? then newMeta else meta
  }

  datatype RotationOutcome = Rotated | Denied(refusal: Refusal) | StoreFailed

  /** Some rotation of the connection is accepted. */
  ghost predicate RotatableBy(req: NewConnection, meta: map<string, string>) {
    exists patch :: PatchOk(KeySet(meta), patch) && (req.scope.Managed? ==> patch.Keys == KeySet(meta))
  }

  lemma UndescribedIsBare()
    ensures ViewFromStore(map[]) == View("", map[], []) && KeySet(map[]) == {}
  {
    var meta: map<string, string> := map[];
    assert SettingsOf(meta) == map[];
    assert KeyNames(meta) == [];
  }

  /** A connection whose creation was tried can be rotated exactly when the first of the two requests was
      answered and the second was not rejected: the metadata was written, whatever the caller was told.
      Otherwise a listing shows no type, no settings and no fields. */
  lemma RotatableExactly(req: NewConnection, newMeta: map<string, string>, first: Fate, second: Fate)
    requires Acceptable(req) && Describes(newMeta, req)
    ensures var meta := MetaAfter(map[], newMeta, first, second);
      && (RotatableBy(req, meta) <==> first.Answered? && !second.Rejected?)
      && (RotatableBy(req, meta) ==> meta == newMeta)
      && (!RotatableBy(req, meta) ==> ViewFromStore(meta) == View("", map[], []))
  {
    hide Describes, ViewFromStore, KeySet;
    var meta := MetaAfter(map[], newMeta, first, second);
    UndescribedIsBare();
    DescribedIsSome(newMeta, req);
    StoredKeys(newMeta, req);
    if first.Answered? && !second.Rejected? {
      assert PatchOk(KeySet(meta), req.secret);
    }
  }

  lemma DescribedIsSome(meta: map<string, string>, req: NewConnection)
    requires Describes(meta, req) && FieldsOk(req.secret)
    ensures meta != map[] && req.secret.Keys != {}
  {
    assert |req.secret| == |req.secret.Keys|;
  }

  /** One path of the secret store: the values and, beside them, the metadata. */
  class StoredSecret {
    var fields: map<string, string>
    var meta: map<string, string>
    var version: nat

    constructor ()
      ensures fields == map[] && meta == map[] && version == 0
    {
      fields, meta, version := map[], map[], 0;
    }

    /** Two requests: a new version of the values, then the metadata unless there is none to write. The second
        is sent only when the first was answered, and may fail alone. */
    method Put(newFields: map<string, string>, newMeta: map<string, string>, first: Fate, second: Fate) returns (ok: bool)
      modifies this
      ensures fields == (if first.Rejected? then old(fields) else newFields)
      ensures version == (if first.Rejected? then old(version) else old(version) + 1)
      ensures meta == MetaAfter(old(meta), newMeta, first, second)
      ensures ok <==> first.Answered? && (newMeta == map[] || second.Answered?)
    {
      if !first.Rejected? {
        fields := newFields;
        version := version + 1;
      }
      if !first.Answered? {
        return false;
      }
      if newMeta != map[] {
        if !second.Rejected? {
          meta := newMeta;
        }
        return second.Answered?;
      }
      return true;
    }

    /** A new connection's payload is put where nothing is stored yet. */
    method Create(req: NewConnection, first: Fate, second: Fate) returns (ok: bool)
      requires fields == map[] && meta == map[] && Acceptable(req)
      modifies this
      ensures ok <==> first.Answered? && second.Answered?
      ensures fields == if first.Rejected? then map[] else req.secret
      ensures RotatableBy(req, meta) <==> first.Answered? && !second.Rejected?
      ensures RotatableBy(req, meta) ==> Describes(meta, req) && Sound(req, fields)
    {
      var payload, newMeta := StorePayload(req);
      RotatableExactly(req, newMeta, first, second);
      ok := Put(payload, newMeta, first, second);
    }

    /** The keys and the current values are read from the store, merged, and put back. */
    method Rotate(scope: Scope, patch: map<string, string>, readable: bool, first: Fate, ghost req: NewConnection)
      returns (outcome: RotationOutcome)
      requires FieldsOk(req.secret) && Describes(meta, req) && Sound(req, fields)
      modifies this
      ensures meta == old(meta) && Sound(req, fields)
      ensures outcome.Denied? ==> RotationReports(scope, req.secret.Keys, patch, outcome.refusal)
      ensures outcome.Rotated? <==>
                && (scope.Managed? || readable) && first.Answered?
                && PatchOk(req.secret.Keys, patch) && (scope.Managed? ==> patch.Keys == req.secret.Keys)
      ensures outcome.Rotated? ==> fields == old(fields) + patch && version == old(version) + 1
      ensures outcome.Denied? ==> fields == old(fields) && version == old(version)
      ensures outcome.StoreFailed? ==> fields == old(fields) || fields == old(fields) + patch
    {
      StoredKeys(meta, req);
      if !scope.Managed? && !readable {
        return StoreFailed;
      }
      var existing := if scope.Managed? then None else Some(fields);
      var merged := MergeRotation(scope, existing, KeySet(meta), patch);
      match merged {
        case Err(e) => return Denied(e);
        case Ok(value) =>
          MergedIsSound(req, fields, patch, scope.Managed?);
          var ok := Put(value, map[], first, Answered);
          return if ok then Rotated else StoreFailed;
      }
    }
  }

  // ----- runs: rotations may overlap, each reading before it writes -----

  /** A rotation under way: what was sent and what it will write. */
  datatype Pending = Pending(patch: map<string, string>, merged: map<string, string>)

  /** `sent` holds every patch accepted so far, `written` the ones that reached the store, in order. */
  datatype State = State(
    fields: map<string, string>, version: nat, pending: map<nat, Pending>,
    sent: seq<map<string, string>>, written: seq<map<string, string>>)

  datatype Step = Begin(id: nat, patch: map<string, string>) | Write(id: nat) | StoreFails(id: nat)

  /** Whether a rotation is accepted. */
  ghost predicate Takes(req: NewConnection, patch: map<string, string>) {
    PatchOk(req.secret.Keys, patch) && (req.scope.Managed? ==> patch.Keys == req.secret.Keys)
  }

  /** One step. A refused rotation, and a write of a rotation that is not under way, change nothing. */
  ghost function Do(req: NewConnection, s: State, step: Step): State {
    match step
    case Begin(id, patch) =>
      if id in s.pending || !Takes(req, patch) then s
      else
        var merged := if req.scope.Managed? then patch else s.fields + patch;
        s.(pending := s.pending[id := Pending(patch, merged)], sent := s.sent + [patch])
    case Write(id) =>
      if id !in s.pending then s
      else
        s.(fields := s.pending[id].merged, version := s.version + 1, pending := s.pending - {id},
           written := s.written + [s.pending[id].patch])
    case StoreFails(id) => s.(pending := s.pending - {id})
  }

  ghost function Next(req: NewConnection): (State, Step) -> Option<State> {
    (s, step) => Some(Do(req, s, step))
  }

  ghost function Created(req: NewConnection): State {
    State(req.secret, 1, map[], [], [])
  }

  /** The value was given at creation or sent by an accepted rotation. */
  ghost predicate WasSent(req: NewConnection, sent: seq<map<string, string>>, k: string, v: string) {
    (k in req.secret && req.secret[k] == v) || exists i :: 0 <= i < |sent| && k in sent[i] && sent[i][k] == v
  }

  ghost predicate AllSent(req: NewConnection, sent: seq<map<string, string>>, fields: map<string, string>) {
    forall k :: k in fields ==> WasSent(req, sent, k, fields[k])
  }

  ghost predicate Inv(req: NewConnection, s: State) {
    && Sound(req, s.fields) && AllSent(req, s.sent, s.fields)
    && forall id :: id in s.pending ==> Sound(req, s.pending[id].merged) && AllSent(req, s.sent, s.pending[id].merged)
  }

  lemma SentGrows(req: NewConnection, sent: seq<map<string, string>>, patch: map<string, string>, fields: map<string, string>)
    requires AllSent(req, sent, fields)
    ensures AllSent(req, sent + [patch], fields) && AllSent(req, sent + [patch], fields + patch)
  {
    var more := sent + [patch];
    assert more[|sent|] == patch;
    forall k, v | WasSent(req, sent, k, v) ensures WasSent(req, more, k, v) {
      if i :| 0 <= i < |sent| && k in sent[i] && sent[i][k] == v {
        assert more[i] == sent[i];
      }
    }
  }

  lemma MergeKeeps(req: NewConnection, s: State, patch: map<string, string>, merged: map<string, string>)
    requires Inv(req, s) && PatchOk(req.secret.Keys, patch)
    requires merged == if req.scope.Managed? then patch else s.fields + patch
    requires req.scope.Managed? ==> patch.Keys == req.secret.Keys
    ensures Sound(req, merged) && AllSent(req, s.sent + [patch], merged)
  {
    SentGrows(req, s.sent, patch, s.fields);
    SentGrows(req, s.sent, patch, map[]);
    assert map[] + patch == patch;
  }

  lemma StepKeeps(req: NewConnection, s: State, step: Step)
    requires Inv(req, s)
    ensures Inv(req, Do(req, s, step))
  {
    var t := Do(req, s, step);
    if step.Begin? && t != s {
      SentGrows(req, s.sent, step.patch, s.fields);
      forall id | id in t.pending
        ensures Sound(req, t.pending[id].merged) && AllSent(req, t.sent, t.pending[id].merged)
      {
        if id == step.id {
          MergeKeeps(req, s, step.patch, t.pending[id].merged);
        } else {
          SentGrows(req, s.sent, step.patch, s.pending[id].merged);
        }
      }
    }
  }

  lemma {:induction false} EveryRunGoesOn(req: NewConnection, s: State, steps: seq<Step>)
    ensures Run(Next(req), s, steps).Some?
    decreases |steps|
  {
    if steps != [] {
      EveryRunGoesOn(req, Do(req, s, steps[0]), steps[1..]);
    }
  }

  ghost function InvOf(req: NewConnection): State -> bool {
    s => Inv(req, s)
  }

  lemma EveryStepKeeps(req: NewConnection)
    ensures Kept(Next(req), InvOf(req))
  {
    forall s, step | Inv(req, s) ensures Inv(req, Do(req, s, step)) {
      StepKeeps(req, s, step);
    }
  }

  /** However rotations of an accepted connection overlap, fail or are refused: the fields are the ones it
      was created with, every value has an accepted length and came from a caller, and the connection still
      meets every rule for a new one. */
  lemma RotationsKeepTheRules(req: NewConnection, steps: seq<Step>)
    requires Acceptable(req)
    ensures Run(Next(req), Created(req), steps).Some?
    ensures var s := Run(Next(req), Created(req), steps).value;
      && s.fields.Keys == req.secret.Keys
      && Acceptable(req.(secret := s.fields))
      && AllSent(req, s.sent, s.fields)
  {
    EveryRunGoesOn(req, Created(req), steps);
    EveryStepKeeps(req);
    RunKeeps(Next(req), InvOf(req), Created(req), steps);
    var fields := Run(Next(req), Created(req), steps).value.fields;
    assert |fields| == |fields.Keys| == |req.secret.Keys| == |req.secret|;
  }

  // ----- which values survive -----

  /** The values of a connection after these patches, one on top of the other. */
  ghost function Overlaid(fields: map<string, string>, patches: seq<map<string, string>>): map<string, string> {
    if patches == [] then fields else Overlaid(fields, patches[..|patches| - 1]) + patches[|patches| - 1]
  }

  /** No rotation is accepted while another one is under way. */
  ghost predicate Apart(req: NewConnection, s: State, steps: seq<Step>)
    decreases |steps|
  {
    steps == []
    || ((steps[0].Begin? ==> s.pending == map[] || Do(req, s, steps[0]) == s) && Apart(req, Do(req, s, steps[0]), steps[1..]))
  }

  /** The values are all that was written, and what a rotation will write lies on top of exactly that. */
  ghost predicate InTurn(req: NewConnection, s: State) {
    && s.fields == Overlaid(req.secret, s.written) && s.fields.Keys == req.secret.Keys
    && (forall i, j :: i in s.pending && j in s.pending ==> i == j)
    && (forall i :: i in s.pending ==> Takes(req, s.pending[i].patch) && s.pending[i].merged == s.fields + s.pending[i].patch)
  }

  lemma BeginInTurn(req: NewConnection, s: State, id: nat, patch: map<string, string>)
    requires InTurn(req, s) && s.pending == map[] && Takes(req, patch)
    ensures InTurn(req, Do(req, s, Begin(id, patch)))
  {
    hide Overlaid;
    assert req.scope.Managed? ==> s.fields + patch == patch;
  }

  lemma WriteInTurn(req: NewConnection, s: State, id: nat)
    requires InTurn(req, s) && id in s.pending
    ensures InTurn(req, Do(req, s, Write(id)))
  {
    var t, patch := Do(req, s, Write(id)), s.pending[id].patch;
    OverlaidMore(req.secret, s.written, patch);
    hide Overlaid;
    assert t.fields == Overlaid(req.secret, s.written) + patch;
    assert t.fields.Keys == s.fields.Keys + patch.Keys;
    forall i ensures i !in t.pending {
    }
  }

  lemma OverlaidMore(fields: map<string, string>, patches: seq<map<string, string>>, p: map<string, string>)
    ensures Overlaid(fields, patches + [p]) == Overlaid(fields, patches) + p
  {
    assert (patches + [p])[..|patches|] == patches;
  }

  lemma StepInTurn(req: NewConnection, s: State, step: Step)
    requires InTurn(req, s) && (step.Begin? ==> s.pending == map[] || Do(req, s, step) == s)
    ensures InTurn(req, Do(req, s, step))
  {
    hide Overlaid;
    match step
    case Begin(id, patch) =>
      if Do(req, s, step) != s {
        BeginInTurn(req, s, id, patch);
      }
    case Write(id) =>
      if id in s.pending {
        WriteInTurn(req, s, id);
      }
    case StoreFails(_) =>
  }

  lemma {:induction false} RunInTurn(req: NewConnection, s: State, steps: seq<Step>)
    requires InTurn(req, s) && Apart(req, s, steps) && Run(Next(req), s, steps).Some?
    ensures InTurn(req, Run(Next(req), s, steps).value)
    decreases |steps|
  {
    if steps != [] {
      StepInTurn(req, s, steps[0]);
      RunInTurn(req, Do(req, s, steps[0]), steps[1..]);
    }
  }

  /** An accepted rotation that meets no other write lays its values over the ones at hand, whatever else is under
      way; one that the store fails on changes no value, and a refused one changes nothing. */
  lemma RotationGoesThrough(req: NewConnection, s: State, id: nat, patch: map<string, string>)
    requires id !in s.pending && s.fields.Keys == req.secret.Keys
    ensures Takes(req, patch) ==>
      Run(Next(req), s, [Begin(id, patch), Write(id)])
        == Some(s.(fields := s.fields + patch, version := s.version + 1, sent := s.sent + [patch], written := s.written + [patch]))
    ensures Takes(req, patch) ==>
      Run(Next(req), s, [Begin(id, patch), StoreFails(id)]) == Some(s.(sent := s.sent + [patch]))
    ensures !Takes(req, patch) ==> Run(Next(req), s, [Begin(id, patch)]) == Some(s)
  {
    var begun := Do(req, s, Begin(id, patch));
    var wrote, failed := [Begin(id, patch), Write(id)], [Begin(id, patch), StoreFails(id)];
    RunStep(Next(req), s, wrote);
    RunStep(Next(req), begun, wrote[1..]);
    RunStep(Next(req), s, failed);
    RunStep(Next(req), begun, failed[1..]);
    RunStep(Next(req), s, [Begin(id, patch)]);
    assert wrote[2..] == failed[2..] == [Begin(id, patch)][1..] == [];
    if Takes(req, patch) {
      assert begun.pending - {id} == s.pending;
      assert req.scope.Managed? ==> s.fields + patch == patch;
    }
  }

  /** In a managed connection every rotation replaces all the values. */
  ghost predicate Replacing(req: NewConnection, s: State) {
    && s.fields == Overlaid(req.secret, s.written) && s.fields.Keys == req.secret.Keys
    && forall i :: i in s.pending ==> s.pending[i].merged == s.pending[i].patch && s.pending[i].patch.Keys == req.secret.Keys
  }

  lemma StepReplaces(req: NewConnection, s: State, step: Step)
    requires req.scope.Managed? && Replacing(req, s)
    ensures Replacing(req, Do(req, s, step))
  {
    if step.Write? && step.id in s.pending {
      var patch := s.pending[step.id].patch;
      OverlaidMore(req.secret, s.written, patch);
      assert s.fields + patch == patch;
    }
    hide Overlaid;
  }

  lemma {:induction false} RunReplaces(req: NewConnection, s: State, steps: seq<Step>)
    requires req.scope.Managed? && Replacing(req, s) && Run(Next(req), s, steps).Some?
    ensures Replacing(req, Run(Next(req), s, steps).value)
    decreases |steps|
  {
    if steps != [] {
      StepReplaces(req, s, steps[0]);
      RunReplaces(req, Do(req, s, steps[0]), steps[1..]);
    }
  }

  /** In a managed connection, and in any other when rotations do not overlap, nothing is lost: the values are
      those of the creation overlaid, in order, by every patch that was written. */
  lemma RotationsAddUp(req: NewConnection, steps: seq<Step>)
    requires req.scope.Managed? || Apart(req, Created(req), steps)
    ensures Run(Next(req), Created(req), steps).Some?
    ensures var s := Run(Next(req), Created(req), steps).value; s.fields == Overlaid(req.secret, s.written)
  {
    EveryRunGoesOn(req, Created(req), steps);
    if req.scope.Managed? {
      RunReplaces(req, Created(req), steps);
    } else {
      RunInTurn(req, Created(req), steps);
    }
  }

  function Overlapping(p: map<string, string>, q: map<string, string>): seq<Step> {
    [Begin(0, p), Begin(1, q), Write(0), Write(1)]
  }

  /** When two rotations of different fields overlap, both are accepted and written and yet the first one's
      values are lost, in every connection that is not managed: exactly the fields of the second survive. */
  lemma OverlappingRotationLosesValues(req: NewConnection, p: map<string, string>, q: map<string, string>)
    requires !req.scope.Managed? && Takes(req, p) && Takes(req, q)
    ensures Run(Next(req), Created(req), Overlapping(p, q)).Some?
    ensures var s := Run(Next(req), Created(req), Overlapping(p, q)).value;
      && s.written == [p, q] && s.fields == req.secret + q
      && (s.fields == Overlaid(req.secret, s.written) <==> forall k :: k in p && k !in q ==> p[k] == req.secret[k])
  {
    var s0, steps := Created(req), Overlapping(p, q);
    var s1 := Do(req, s0, steps[0]);
    var s2 := Do(req, s1, steps[1]);
    var s3 := Do(req, s2, steps[2]);
    var s4 := Do(req, s3, steps[3]);
    assert s4.written == [p, q] && s4.fields == req.secret + q;
    RunStep(Next(req), s0, steps);
    RunStep(Next(req), s1, steps[1..]);
    RunStep(Next(req), s2, steps[2..]);
    RunStep(Next(req), s3, steps[3..]);
    assert steps[4..] == [];
    OverlaidTwice(req.secret, p, q);
    LostValues(req.secret, p, q);
  }

  lemma OverlaidTwice(fields: map<string, string>, p: map<string, string>, q: map<string, string>)
    ensures Overlaid(fields, [p, q]) == fields + p + q
  {
    assert [p, q][..1] == [p] && [p][..0] == [];
    assert Overlaid(fields, [p]) == Overlaid(fields, []) + p;
  }

  lemma LostValues(fields: map<string, string>, p: map<string, string>, q: map<string, string>)
    requires p.Keys <= fields.Keys
    ensures fields + q == fields + p + q <==> forall k :: k in p && k !in q ==> p[k] == fields[k]
  {
    if fields + q == fields + p + q {
      forall k | k in p && k !in q ensures p[k] == fields[k] {
        assert (fields + q)[k] == fields[k] && (fields + p + q)[k] == p[k];
      }
    }
    if forall k :: k in p && k !in q ==> p[k] == fields[k] {
      assert fields + q == fields + p + q;
    }
  }
}
