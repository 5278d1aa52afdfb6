/** Table documentation: validation of a write, its difference to what is stored, and the commit that carries it. */
module Documentation {
  import Connections
  import opened Sorting
  import opened Text
  import opened Wrappers

  // ----- stored properties and what a reader sees of them -----

  /** A table property as the catalog stores it; only a text counts as documentation. */
  datatype Property = Plain(text: string) | Other(json: string)

  type Properties = map<string, Property>

  const COMMENT := "comment"
  const TAGS := "stardelt.tags"
  const OWNER := "stardelt.owner"
  const DOMAIN := "stardelt.domain"

  datatype View = View(description: Option<string>, tags: seq<string>, owner: Option<string>, domain: Option<string>)

  function TextOf(props: Properties, key: string): Option<string> {
    if key in props && props[key].Plain? then Some(props[key].text) else None
  }

  function TrimmedParts(parts: seq<string>): seq<string> {
    if parts == [] then []
    else (if Trim(parts[0]) == "" then [] else [Trim(parts[0])]) + TrimmedParts(parts[1..])
  }

  /** Split on commas, trim, drop empties. */
  function SplitTags(raw: string): seq<string> {
    TrimmedParts(SplitOn(raw, ','))
  }

  function TagsOf(stored: Option<string>): seq<string> {
    match stored case None => [] case Some(raw) => SplitTags(raw)
  }

  function ViewOf(props: Properties): View {
    View(TextOf(props, COMMENT), TagsOf(TextOf(props, TAGS)), TextOf(props, OWNER), TextOf(props, DOMAIN))
  }

  // ----- the request -----

  /** `None`: the key was absent. `Some(None)`: it was null. */
  datatype Request = Request(
    description: Option<Option<string>>,
    tags: Option<Option<seq<string>>>,
    owner: Option<Option<string>>,
    domain: Option<Option<string>>)

  datatype Refusal = TooLong | HasNul | TooManyTags | BadTag | RepeatedTag | BadOwner | BadDomain

  datatype Validation = Accepted(request: Request) | Rejected(reason: Refusal)

  const MAX_DESCRIPTION_CHARS := 4000
  const MAX_TAGS := 20

  const SLUG_FIRST := Connections.LOWER + Connections.DIGITS

  predicate LowerOrDigit(c: char) {
    'a' <= c <= 'z' || '0' <= c <= '9'
  }

  predicate Slug(s: string, max: nat) {
    && 1 <= |s| <= max && LowerOrDigit(s[0])
    && forall i :: 0 <= i < |s| ==> LowerOrDigit(s[i]) || s[i] == '-' || s[i] == '_'
  }

  predicate TagOk(tag: string) { Slug(tag, 32) }

  predicate DomainOk(domain: string) { Slug(domain, 40) }

  /** Tags and domains by their alphabets: lower-case letters and digits in front, these and two marks behind. */
  lemma SlugExactly(s: string)
    ensures TagOk(s) <==> Connections.NameOver(s, SLUG_FIRST, SLUG_FIRST + "-_", 32)
    ensures DomainOk(s) <==> Connections.NameOver(s, SLUG_FIRST, SLUG_FIRST + "-_", 40)
  {
    forall c: char
      ensures LowerOrDigit(c) <==> c in SLUG_FIRST
      ensures (LowerOrDigit(c) || c == '-' || c == '_') <==> c in SLUG_FIRST + "-_"
    {
      Connections.InAlphabet(c);
      Connections.AddUp(c, Connections.LOWER, Connections.DIGITS, "-_");
    }
  }

  /** A description as it is stored: trimmed, and nothing at all when nothing is left. */
  function StoredDescription(raw: Option<string>): Option<string> {
    if raw.Some? && Trim(raw.value) != "" then Some(Trim(raw.value)) else None
  }

  function StoredTags(raw: Option<seq<string>>): Option<seq<string>> {
    if raw.Some? && raw.value != [] then Some(Sort(raw.value)) else None
  }

  predicate DescriptionFits(raw: Option<string>) {
    raw.Some? ==> |Trim(raw.value)| <= MAX_DESCRIPTION_CHARS && '\0' !in Trim(raw.value)
  }

  ghost predicate TagsFit(raw: Option<seq<string>>) {
    raw.Some? ==> |raw.value| <= MAX_TAGS && Distinct(raw.value) && forall t :: t in raw.value ==> TagOk(t)
  }

  predicate DescriptionAccepted(req: Request) {
    req.description.Some? ==> DescriptionFits(req.description.value)
  }

  ghost predicate TagsAccepted(req: Request) {
    req.tags.Some? ==> TagsFit(req.tags.value)
  }

  predicate OwnerAccepted(req: Request) {
    req.owner.Some? && req.owner.value.Some? ==> Connections.GroupOk(req.owner.value.value)
  }

  predicate DomainAccepted(req: Request) {
    req.domain.Some? && req.domain.value.Some? ==> DomainOk(req.domain.value.value)
  }

  ghost predicate Acceptable(req: Request) {
    DescriptionAccepted(req) && TagsAccepted(req) && OwnerAccepted(req) && DomainAccepted(req)
  }

  /** Why a tag list is refused: too many, or else the first tag that is malformed or seen before. */
  ghost predicate TagsRefused(tags: seq<string>, reason: Refusal) {
    match reason
    case TooManyTags => |tags| > MAX_TAGS
    case BadTag => |tags| <= MAX_TAGS && exists i :: 0 <= i < |tags| && !TagOk(tags[i]) && TagsFit(Some(tags[..i]))
    case RepeatedTag =>
      |tags| <= MAX_TAGS && exists i :: 0 <= i < |tags| && TagOk(tags[i]) && tags[i] in tags[..i] && TagsFit(Some(tags[..i]))
    case _ => false
  }

  /** The rule named is the first one broken, in the order description, tags, owner, domain. */
  ghost predicate RefusedFor(req: Request, reason: Refusal) {
    if !DescriptionAccepted(req) then
      reason == if |Trim(req.description.value.value)| > MAX_DESCRIPTION_CHARS then TooLong else HasNul
    else if !TagsAccepted(req) then TagsRefused(req.tags.value.value, reason)
    else if !OwnerAccepted(req) then reason == BadOwner
    else reason == BadDomain && !DomainAccepted(req)
  }

  function Normalised(req: Request): Request {
    Request(
      if req.description.None? then None else Some(StoredDescription(req.description.value)),
      if req.tags.None? then None else Some(StoredTags(req.tags.value)),
      req.owner,
      req.domain)
  }

  /** A request that has passed validation. */
  ghost predicate Validated(req: Request) {
    exists raw :: Acceptable(raw) && req == Normalised(raw)
  }

  method CheckTags(tags: seq<string>) returns (refusal: Option<Refusal>)
    ensures refusal.None? <==> TagsFit(Some(tags))
    ensures refusal.Some? ==> TagsRefused(tags, refusal.value)
  {
    if |tags| > MAX_TAGS {
      return Some(TooManyTags);
    }
    var seen: set<string> := {};
    for i := 0 to |tags|
      invariant forall t :: t in seen <==> t in tags[..i]
      invariant Distinct(tags[..i])
      invariant forall j :: 0 <= j < i ==> TagOk(tags[j])
    {
      if !TagOk(tags[i]) {
        assert TagsFit(Some(tags[..i]));
        return Some(BadTag);
      }
      if tags[i] in seen {
        assert tags[i] in tags[..i] && TagsFit(Some(tags[..i]));
        return Some(RepeatedTag);
      }
      seen := seen + {tags[i]};
      assert tags[..i + 1] == tags[..i] + [tags[i]];
    }
    assert tags[..|tags|] == tags;
    return None;
  }

  /** Accepts exactly the acceptable requests, in their normal form. */
  method ValidateUpdate(req: Request) returns (v: Validation)
    ensures v.Accepted? <==> Acceptable(req)
    ensures v.Accepted? ==> v.request == Normalised(req)
    ensures v.Rejected? ==> RefusedFor(req, v.reason)
  {
    if req.description.Some? && req.description.value.Some? {
      var text := Trim(req.description.value.value);
      if |text| > MAX_DESCRIPTION_CHARS {
        return Rejected(TooLong);
      }
      if '\0' in text {
        return Rejected(HasNul);
      }
    }
    if req.tags.Some? && req.tags.value.Some? {
      var refusal := CheckTags(req.tags.value.value);
      if refusal.Some? {
        return Rejected(refusal.value);
      }
    }
    if req.owner.Some? && req.owner.value.Some? && !Connections.GroupOk(req.owner.value.value) {
      return Rejected(BadOwner);
    }
    if req.domain.Some? && req.domain.value.Some? && !DomainOk(req.domain.value.value) {
      return Rejected(BadDomain);
    }
    return Accepted(Normalised(req));
  }

  /** A stored description is the text sent without the white space at its two ends and with nothing else
      gone; it is dropped exactly when the text is all white space. */
  lemma DescriptionIsTrimmed(raw: string)
    ensures var stored := StoredDescription(Some(raw));
      && (stored.None? <==> forall c :: c in raw ==> IsSpace(c))
      && (stored.Some? ==>
            && stored.value != "" && Trimmed(stored.value)
            && exists before, after :: AllSpace(before) && AllSpace(after) && raw == before + stored.value + after)
  {
    TrimIsTrimmed(raw);
    TrimOnlyDropsSpace(raw);
    TrimDrops(raw);
  }

  /** What an accepted request stores of what was sent: owner and domain as they are, no key that was absent, a
      removal for a null or blank description and for null or no tags, and otherwise the description trimmed and
      all the tags, sorted. */
  lemma AcceptedAsSent(sent: Request, stored: Request)
    requires stored == Normalised(sent)
    ensures stored.owner == sent.owner && stored.domain == sent.domain
    ensures (stored.description.None? <==> sent.description.None?) && (stored.tags.None? <==> sent.tags.None?)
    ensures sent.description == Some(None) ==> stored.description == Some(None)
    ensures sent.description.Some? && sent.description.value.Some? ==>
      var text := sent.description.value.value;
      if AllSpace(text) then stored.description == Some(None)
      else stored.description.value.Some? && stored.description.value.value != "" && TrimmedFrom(stored.description.value.value, text)
    ensures sent.tags == Some(None) || sent.tags == Some(Some([])) ==> stored.tags == Some(None)
    ensures sent.tags.Some? && sent.tags.value.Some? && sent.tags.value.value != [] ==>
      && stored.tags.value.Some? && SortedStrings(stored.tags.value.value)
      && multiset(stored.tags.value.value) == multiset(sent.tags.value.value)
  {
    if sent.description.Some? && sent.description.value.Some? {
      var text := sent.description.value.value;
      TrimIsTrimmedFrom(text);
      TrimOnlyDropsSpace(text);
      assert AllSpace(text) <==> forall c :: c in text ==> IsSpace(c);
    }
    if sent.tags.Some? && sent.tags.value.Some? {
      SortSorts(sent.tags.value.value);
    }
  }

  /** The order in which tags are sent does not matter. */
  lemma TagOrderIsIrrelevant(a: seq<string>, b: seq<string>)
    requires multiset(a) == multiset(b)
    ensures StoredTags(Some(a)) == StoredTags(Some(b))
  {
    SortIgnoresOrder(a, b);
    assert |a| == |multiset(a)| == |multiset(b)| == |b|;
  }

  // ----- how a stored tag list reads -----

  lemma {:induction false} TrimmedPartsConcat(a: seq<string>, b: seq<string>)
    ensures TrimmedParts(a + b) == TrimmedParts(a) + TrimmedParts(b)
  {
    if a == [] {
      assert a + b == b;
    } else {
      assert (a + b)[1..] == a[1..] + b;
      TrimmedPartsConcat(a[1..], b);
    }
  }

  /** Whatever text is stored: the part in front of the first comma is a tag, trimmed, unless it is blank, and the
      rest is read in the same way. */
  lemma TagsReadPartByPart(part: string, rest: string)
    requires Without(part, ',')
    ensures SplitTags(part) == if AllSpace(part) then [] else [Trim(part)]
    ensures SplitTags(part + "," + rest) == SplitTags(part) + SplitTags(rest)
    ensures TrimmedFrom(Trim(part), part)
  {
    TrimIsTrimmedFrom(part);
    TrimOnlyDropsSpace(part);
    assert AllSpace(part) <==> forall c :: c in part ==> IsSpace(c);
    SplitOnPrefix(part, "", ',');
    assert part + "" == part && SplitOn(part, ',') == [part] && [part][1..] == [];
    var tail := "," + rest;
    assert tail[1..] == rest;
    SplitOnPrefix(part, tail, ',');
    Glue(part, ",", rest);
    assert SplitOn(tail, ',') == [""] + SplitOn(rest, ',');
    assert SplitOn(part + tail, ',') == [part] + SplitOn(rest, ',');
    TrimmedPartsConcat([part], SplitOn(rest, ','));
  }

  // ----- the round trip of a tag list -----

  ghost predicate PlainTag(t: string) {
    t != "" && Trim(t) == t && Without(t, ',')
  }

  lemma TagIsPlain(t: string)
    requires TagOk(t)
    ensures PlainTag(t)
  {
    TrimKeeps(t);
  }

  lemma {:induction false} PlainPartsKept(parts: seq<string>)
    requires forall p :: p in parts ==> PlainTag(p)
    ensures TrimmedParts(parts) == parts
  {
    if parts != [] {
      assert parts[0] in parts;
      PlainPartsKept(parts[1..]);
    }
  }

  /** Splitting the stored property gives back exactly the tags joined into it. */
  lemma SplitUndoesJoinTags(tags: seq<string>)
    requires tags != [] && forall t :: t in tags ==> PlainTag(t)
    ensures SplitTags(JoinWith(tags, ',')) == tags
  {
    SplitUndoesJoin(tags, ',');
    PlainPartsKept(tags);
  }

  lemma ValidatedTagsArePlain(req: Request)
    requires Validated(req) && req.tags.Some? && req.tags.value.Some?
    ensures req.tags.value.value != [] && forall t :: t in req.tags.value.value ==> PlainTag(t)
  {
    var raw :| Acceptable(raw) && req == Normalised(raw);
    var tags := raw.tags.value.value;
    SortSorts(tags);
    assert |Sort(tags)| == |multiset(Sort(tags))| == |tags|;
    forall t | t in Sort(tags) ensures PlainTag(t) {
      assert t in multiset(Sort(tags));
      TagIsPlain(t);
    }
  }

  // ----- the difference -----

  datatype Patch = Patch(puts: map<string, string>, drops: seq<string>, changed: seq<string>)

  const NO_PATCH := Patch(map[], [], [])

  /** One single-text field: nothing when it was not sent or says what is stored. */
  function DiffField(p: Patch, key: string, name: string, next: Option<Option<string>>, current: Option<string>): Patch {
    if next.None? || next.value == current then p
    else match next.value
      case Some(text) => Patch(p.puts[key := text], p.drops, p.changed + [name])
      case None => Patch(p.puts, p.drops + [key], p.changed + [name])
  }

  function DiffTags(p: Patch, next: Option<Option<seq<string>>>, current: seq<string>): Patch {
    if next.None? then p
    else
      var tags := if next.value.Some? then next.value.value else [];
      if tags == current then p
      else if tags == [] then Patch(p.puts, p.drops + [TAGS], p.changed + ["tags"])
      else Patch(p.puts[TAGS := JoinWith(tags, ',')], p.drops, p.changed + ["tags"])
  }

  function Diff(current: View, req: Request): Patch {
    var p1 := DiffField(NO_PATCH, COMMENT, "description", req.description, current.description);
    var p2 := DiffTags(p1, req.tags, current.tags);
    var p3 := DiffField(p2, OWNER, "owner", req.owner, current.owner);
    DiffField(p3, DOMAIN, "domain", req.domain, current.domain)
  }

  /** The difference, filled in field by field. */
  method WriteDiff(current: View, req: Request)
    returns (toSet: map<string, string>, toRemove: seq<string>, changed: seq<string>)
    ensures Patch(toSet, toRemove, changed) == Diff(current, req)
  {
    toSet, toRemove, changed := map[], [], [];
    if req.description.Some? && req.description.value != current.description {
      changed := changed + ["description"];
      match req.description.value
      case Some(text) => toSet := toSet[COMMENT := text];
      case None => toRemove := toRemove + [COMMENT];
    }
    if req.tags.Some? {
      var next := if req.tags.value.Some? then req.tags.value.value else [];
      if next != current.tags {
        changed := changed + ["tags"];
        if next == [] {
          toRemove := toRemove + [TAGS];
        } else {
          toSet := toSet[TAGS := JoinWith(next, ',')];
        }
      }
    }
    if req.owner.Some? && req.owner.value != current.owner {
      changed := changed + ["owner"];
      match req.owner.value
      case Some(owner) => toSet := toSet[OWNER := owner];
      case None => toRemove := toRemove + [OWNER];
    }
    if req.domain.Some? && req.domain.value != current.domain {
      changed := changed + ["domain"];
      match req.domain.value
      case Some(domain) => toSet := toSet[DOMAIN := domain];
      case None => toRemove := toRemove + [DOMAIN];
    }
  }

  /** What the catalog makes of `set-properties` followed by `remove-properties`. */
  function ApplyPatch(props: Properties, p: Patch): Properties {
    (props + map k | k in p.puts :: Plain(p.puts[k])) - (set k | k in p.drops)
  }

  /** The current documentation with every field that was sent laid over it. */
  function Overlay(current: View, req: Request): View {
    View(
      if req.description.Some? then req.description.value else current.description,
      if req.tags.None? then current.tags else if req.tags.value.Some? then req.tags.value.value else [],
      if req.owner.Some? then req.owner.value else current.owner,
      if req.domain.Some? then req.domain.value else current.domain)
  }

  /** What a patch does to one key. */
  function Effect(p: Patch, key: string): Option<Option<string>> {
    if key in p.drops then Some(None) else if key in p.puts then Some(Some(p.puts[key])) else None
  }

  function FieldEffect(next: Option<Option<string>>, current: Option<string>): Option<Option<string>> {
    if next.Some? && next.value != current then next else None
  }

  function TagsEffect(next: Option<Option<seq<string>>>, current: seq<string>): Option<Option<string>> {
    if next.None? then None
    else
      var tags := if next.value.Some? then next.value.value else [];
      if tags == current then None else if tags == [] then Some(None) else Some(Some(JoinWith(tags, ',')))
  }

  /** A patch that names only these keys, each of them once. */
  ghost predicate Names(p: Patch, keys: set<string>) {
    && (forall k :: k in p.puts || k in p.drops ==> k in keys)
    && (forall k :: k in p.puts ==> k !in p.drops)
    && |p.changed| == |p.puts| + |p.drops|
  }

  lemma DiffFieldEffect(p: Patch, keys: set<string>, key: string, name: string, next: Option<Option<string>>, current: Option<string>)
    requires Names(p, keys) && key !in keys
    ensures var q := DiffField(p, key, name, next, current);
      && Names(q, keys + {key})
      && Effect(q, key) == FieldEffect(next, current)
      && forall k :: k in keys ==> Effect(q, k) == Effect(p, k)
  {
  }

  lemma DiffTagsEffect(p: Patch, keys: set<string>, next: Option<Option<seq<string>>>, current: seq<string>)
    requires Names(p, keys) && TAGS !in keys
    ensures var q := DiffTags(p, next, current);
      && Names(q, keys + {TAGS})
      && Effect(q, TAGS) == TagsEffect(next, current)
      && forall k :: k in keys ==> Effect(q, k) == Effect(p, k)
  {
  }

  /** The whole difference, key by key: it sets and removes nothing else, and no key both ways. */
  lemma DiffEffects(current: View, req: Request)
    ensures var p := Diff(current, req);
      && Effect(p, COMMENT) == FieldEffect(req.description, current.description)
      && Effect(p, TAGS) == TagsEffect(req.tags, current.tags)
      && Effect(p, OWNER) == FieldEffect(req.owner, current.owner)
      && Effect(p, DOMAIN) == FieldEffect(req.domain, current.domain)
      && Names(p, {COMMENT, TAGS, OWNER, DOMAIN})
  {
    KeysDiffer();
    var p1 := DiffField(NO_PATCH, COMMENT, "description", req.description, current.description);
    var p2 := DiffTags(p1, req.tags, current.tags);
    var p3 := DiffField(p2, OWNER, "owner", req.owner, current.owner);
    DiffFieldEffect(NO_PATCH, {}, COMMENT, "description", req.description, current.description);
    assert {} + {COMMENT} == {COMMENT};
    DiffTagsEffect(p1, {COMMENT}, req.tags, current.tags);
    assert {COMMENT} + {TAGS} == {COMMENT, TAGS};
    DiffFieldEffect(p2, {COMMENT, TAGS}, OWNER, "owner", req.owner, current.owner);
    assert {COMMENT, TAGS} + {OWNER} == {COMMENT, TAGS, OWNER};
    DiffFieldEffect(p3, {COMMENT, TAGS, OWNER}, DOMAIN, "domain", req.domain, current.domain);
    assert {COMMENT, TAGS, OWNER} + {DOMAIN} == {COMMENT, TAGS, OWNER, DOMAIN};
  }

  lemma FieldChanged(p: Patch, key: string, name: string, next: Option<Option<string>>, current: Option<string>)
    ensures DiffField(p, key, name, next, current).changed
         == p.changed + if FieldEffect(next, current).Some? then [name] else []
  {
  }

  lemma TagsChanged(p: Patch, next: Option<Option<seq<string>>>, current: seq<string>)
    ensures DiffTags(p, next, current).changed == p.changed + if TagsEffect(next, current).Some? then ["tags"] else []
  {
  }

  /** The audit line names exactly the fields whose property the patch sets or removes, in their fixed order. */
  lemma ChangedNamesTheEffects(current: View, req: Request)
    ensures Diff(current, req).changed
         == (if FieldEffect(req.description, current.description).Some? then ["description"] else [])
          + (if TagsEffect(req.tags, current.tags).Some? then ["tags"] else [])
          + (if FieldEffect(req.owner, current.owner).Some? then ["owner"] else [])
          + (if FieldEffect(req.domain, current.domain).Some? then ["domain"] else [])
  {
    hide DiffField, DiffTags, FieldEffect, TagsEffect;
    var p1 := DiffField(NO_PATCH, COMMENT, "description", req.description, current.description);
    var p2 := DiffTags(p1, req.tags, current.tags);
    var p3 := DiffField(p2, OWNER, "owner", req.owner, current.owner);
    FieldChanged(NO_PATCH, COMMENT, "description", req.description, current.description);
    TagsChanged(p1, req.tags, current.tags);
    FieldChanged(p2, OWNER, "owner", req.owner, current.owner);
    FieldChanged(p3, DOMAIN, "domain", req.domain, current.domain);
  }

  lemma KeysDiffer()
    ensures COMMENT != TAGS && COMMENT != OWNER && COMMENT != DOMAIN && TAGS != OWNER && TAGS != DOMAIN && OWNER != DOMAIN
  {
    assert |COMMENT| == 7 && |TAGS| == 13 && |OWNER| == 14 && |DOMAIN| == 15;
  }

  function Effected(current: Option<string>, effect: Option<Option<string>>): Option<string> {
    match effect case None => current case Some(next) => next
  }

  lemma AppliedText(props: Properties, p: Patch, key: string)
    ensures TextOf(ApplyPatch(props, p), key) == Effected(TextOf(props, key), Effect(p, key))
  {
  }

  lemma AppliedView(props: Properties, p: Patch)
    ensures ViewOf(ApplyPatch(props, p))
         == View(Effected(TextOf(props, COMMENT), Effect(p, COMMENT)),
                 TagsOf(Effected(TextOf(props, TAGS), Effect(p, TAGS))),
                 Effected(TextOf(props, OWNER), Effect(p, OWNER)),
                 Effected(TextOf(props, DOMAIN), Effect(p, DOMAIN)))
  {
    AppliedText(props, p, COMMENT);
    AppliedText(props, p, TAGS);
    AppliedText(props, p, OWNER);
    AppliedText(props, p, DOMAIN);
  }

  /** The tag property of the patch reads as the tags asked for. */
  lemma TagsReadBack(stored: Option<string>, req: Request)
    requires Validated(req)
    ensures TagsOf(Effected(stored, TagsEffect(req.tags, TagsOf(stored))))
         == if req.tags.None? then TagsOf(stored) else if req.tags.value.Some? then req.tags.value.value else []
  {
    if req.tags.Some? && req.tags.value.Some? {
      ValidatedTagsArePlain(req);
      SplitUndoesJoinTags(req.tags.value.value);
    }
  }

  /** Applying the difference makes the table read exactly as the current documentation overlaid with
      the request, whatever was stored before. */
  lemma PatchMeansOverlay(props: Properties, req: Request)
    requires Validated(req)
    ensures ViewOf(ApplyPatch(props, Diff(ViewOf(props), req))) == Overlay(ViewOf(props), req)
  {
    AppliedView(props, Diff(ViewOf(props), req));
    DiffEffects(ViewOf(props), req);
    TagsReadBack(TextOf(props, TAGS), req);
  }

  /** Every property the request did not name keeps its value, documentation key or not. */
  lemma PatchTouchesNothingElse(props: Properties, req: Request, key: string)
    requires key == COMMENT ==> req.description.None?
    requires key == TAGS ==> req.tags.None?
    requires key == OWNER ==> req.owner.None?
    requires key == DOMAIN ==> req.domain.None?
    ensures var after := ApplyPatch(props, Diff(ViewOf(props), req));
      (key in after <==> key in props) && (key in props ==> after[key] == props[key])
  {
    DiffEffects(ViewOf(props), req);
    KeysDiffer();
  }

  /** No commit is sent exactly when the overlay says what the table says already. */
  lemma NothingToCommitExactly(current: View, req: Request)
    ensures Diff(current, req).changed == [] <==> Overlay(current, req) == current
    ensures Diff(current, req).changed == [] <==> Diff(current, req) == NO_PATCH
  {
  }

  /** Sending the same request again finds nothing to change. */
  lemma SameRequestTwice(props: Properties, req: Request)
    requires Validated(req)
    ensures Diff(ViewOf(ApplyPatch(props, Diff(ViewOf(props), req))), req).changed == []
  {
    PatchMeansOverlay(props, req);
    NothingToCommitExactly(Overlay(ViewOf(props), req), req);
  }

  /** The same patch applied twice is the patch applied once. */
  lemma PatchIdempotent(props: Properties, p: Patch)
    ensures ApplyPatch(ApplyPatch(props, p), p) == ApplyPatch(props, p)
  {
  }

  // ----- the commit and its retries -----

  /** How the catalog ends one commit request: 500 and 503 mean another commit was in flight. */
  datatype Status = Success | NotFound | Contended | OtherStatus | NoAnswer

  /** One request's fate. A failure may or may not have taken effect before it was reported. */
  datatype Fate = Fate(status: Status, applied: bool)

  class CatalogTable {
    var props: Properties
    var clock: nat
    const fates: nat -> Fate

    constructor (props: Properties, fates: nat -> Fate)
      ensures this.props == props && this.fates == fates && clock == 0
    {
      this.props, this.fates, clock := props, fates, 0;
    }

    method Post(p: Patch) returns (status: Status)
      modifies this
      ensures clock == old(clock) + 1
      ensures status == fates(old(clock)).status
      ensures props == if status.Success? || fates(old(clock)).applied then ApplyPatch(old(props), p) else old(props)
    {
      var fate := fates(clock);
      clock := clock + 1;
      status := fate.status;
      if status.Success? || fate.applied {
        props := ApplyPatch(props, p);
      }
    }
  }

  datatype CommitOutcome = Committed | NoSuchTable | Busy | RefusedByCatalog | Unreachable

  const ATTEMPTS := 3

  /** The first answer other than a contention decides, if it is among the first `left`. */
  function Decided(fates: nat -> Fate, k: nat, left: nat): CommitOutcome
    decreases left
  {
    if left == 0 then Busy
    else match fates(k).status
      case Success => Committed
      case NotFound => NoSuchTable
      case OtherStatus => RefusedByCatalog
      case NoAnswer => Unreachable
      case Contended => Decided(fates, k + 1, left - 1)
  }

  /** Up to three requests, with a growing wait. However many of them took effect, the table ends up with
      the patch applied once or not at all, and with it applied when the catalog says so. */
  method Commit(table: CatalogTable, p: Patch) returns (outcome: CommitOutcome, waited: nat)
    modifies table
    ensures outcome == Decided(table.fates, old(table.clock), ATTEMPTS)
    ensures table.props == old(table.props) || table.props == ApplyPatch(old(table.props), p)
    ensures outcome.Committed? ==> table.props == ApplyPatch(old(table.props), p)
    ensures old(table.clock) < table.clock <= old(table.clock) + ATTEMPTS
    ensures waited == (match table.clock - old(table.clock) case 1 => 0 case 2 => 200 case _ => 600)
    ensures forall k :: old(table.clock) <= k < table.clock - 1 ==> table.fates(k).status.Contended?
  {
    PatchIdempotent(table.props, p);
    waited := 0;
    var wait := 200;
    var attempt := 1;
    while attempt <= ATTEMPTS
      invariant 1 <= attempt <= ATTEMPTS
      invariant table.clock == old(table.clock) + attempt - 1
      invariant table.props == old(table.props) || table.props == ApplyPatch(old(table.props), p)
      invariant wait == (match attempt case 1 => 200 case 2 => 400 case _ => 800)
      invariant waited == (match attempt case 1 => 0 case 2 => 200 case _ => 600)
      invariant forall k :: old(table.clock) <= k < table.clock ==> table.fates(k).status.Contended?
      invariant Decided(table.fates, old(table.clock), ATTEMPTS) == Decided(table.fates, table.clock, ATTEMPTS + 1 - attempt)
    {
      var status := table.Post(p);
      match status {
        case Success => return Committed, waited;
        case NotFound => return NoSuchTable, waited;
        case OtherStatus => return RefusedByCatalog, waited;
        case NoAnswer => return Unreachable, waited;
        case Contended =>
          if attempt == ATTEMPTS {
            return Busy, waited;
          }
          waited := waited + wait;
          wait := 2 * wait;
          attempt := attempt + 1;
      }
    }
  }
}
