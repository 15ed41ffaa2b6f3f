/** The identity record of a _dnsid TXT record (dnsid/models.py:600-935): a list of tag=value elements
    separated by semicolons (the tag-list of section 3.2 of RFC 6376), its parsers, its canonical
    signing form and its printer.  The semantic checks of `validate` are not part of this model. */
module Records {
  import opened Texts
  import opened Sorting

  datatype ParseError =
    | VersionNotFirst
    | UnsupportedVersion
    | EmptyElement
    | NoEquals
    | BadName
    | BadValue
    | DuplicateTag
    | SignaturePresent
    | MissingTags
    | EmptyRequiredTags
    | NotCanonical

  datatype Parsed<+T> = Ok(value: T) | Err(error: ParseError)

  datatype Pair = Pair(tag: string, value: string)

  /** The ten tag attributes by name, the extension tags in insertion order, and which optional tags a
      parsed text held. */
  datatype Record = Record(fields: map<string, string>, unknown: seq<Pair>, parsedOptional: set<string>)

  const DRAFT_01 := "dnsid-draft-01"
  const DNSID_1 := "DNSid1"

  const KNOWN_ORDER := ["v", "gi", "ek", "ku", "lr", "su", "sg", "fl", "ka", "cu"]

  predicate Required(tag: string) {
    tag == "v" || tag == "gi" || tag == "ek" || tag == "ku" || tag == "lr" || tag == "su" || tag == "sg"
  }

  predicate Optional(tag: string) {
    tag == "fl" || tag == "ka" || tag == "cu"
  }

  predicate Known(tag: string) {
    Required(tag) || Optional(tag)
  }

  predicate Supported(version: string) {
    version == DRAFT_01 || version == DNSID_1
  }

  const BLANK := Record(map t | t in KNOWN_ORDER :: if t == "v" then DRAFT_01 else "", [], {})

  /** `getattr` and `setattr` on a tag attribute. */
  function Get(r: Record, tag: string): string {
    if tag in r.fields then r.fields[tag] else ""
  }

  function Put(r: Record, tag: string, value: string): Record {
    r.(fields := r.fields[tag := value])
  }

  // ---- Grammar ----

  predicate Alpha(c: char) {
    'A' <= c <= 'Z' || 'a' <= c <= 'z'
  }

  predicate ValidName(name: string) {
    name != [] && Alpha(name[0]) && forall i | 0 <= i < |name| ::
        Alpha(name[i]) || '0' <= name[i] <= '9' || name[i] == '_'
  }

  predicate ValidValue(value: string) {
    forall i | 0 <= i < |value| :: '!' <= value[i] <= ':' || '<' <= value[i] <= '~'
  }

  predicate ValidPair(p: Pair) {
    ValidName(p.tag) && ValidValue(p.value)
  }

  function Render(p: Pair): string {
    p.tag + "=" + p.value
  }

  // ---- Parsing ----

  predicate HasTag(pairs: seq<Pair>, tag: string) {
    exists i | 0 <= i < |pairs| :: pairs[i].tag == tag
  }

  /** A tag=value element, after the pairs before it. */
  function ParseText(text: string, before: seq<Pair>, unsigned: bool): Parsed<Pair> {
    if '=' !in text then Err(NoEquals)
    else
      var p := Pair(text[..Find(text, '=')], text[Find(text, '=') + 1..]);
      if !ValidName(p.tag) then Err(BadName)
      else if !ValidValue(p.value) then Err(BadValue)
      else if HasTag(before, p.tag) then Err(DuplicateTag)
      else if unsigned && p.tag == "sg" then Err(SignaturePresent)
      else Ok(p)
  }

  /** The i-th element of the list.  One space may follow a semicolon. */
  function ParseElement(element: string, i: nat, before: seq<Pair>, unsigned: bool): Parsed<Pair> {
    if element == [] then Err(EmptyElement)
    else ParseText(if i > 0 && element[0] == ' ' then element[1..] else element, before, unsigned)
  }

  function ParseElements(elements: seq<string>, unsigned: bool): Parsed<seq<Pair>> {
    if elements == [] then Ok([])
    else
      var n := |elements| - 1;
      match ParseElements(elements[..n], unsigned)
      case Err(e) => Err(e)
      case Ok(before) =>
        match ParseElement(elements[n], n, before, unsigned)
        case Err(e) => Err(e)
        case Ok(p) => Ok(before + [p])
  }

  /** A semicolon at the very end leaves an empty last element, which is passed over. */
  function Body(elements: seq<string>): seq<string>
    requires elements != []
  {
    if elements[|elements| - 1] == [] then elements[..|elements| - 1] else elements
  }

  /** What one tag does to the record. */
  function PutTag(r: Record, p: Pair): Record {
    if !Known(p.tag) then r.(unknown := r.unknown + [p])
    else
      var r1 := if Required(p.tag) then r else r.(parsedOptional := r.parsedOptional + {p.tag});
      if p.value != [] || Required(p.tag) then Put(r1, p.tag, p.value) else r1
  }

  function Build(pairs: seq<Pair>): Record {
    if pairs == [] then BLANK else PutTag(Build(pairs[..|pairs| - 1]), pairs[|pairs| - 1])
  }

  predicate HasRequired(pairs: seq<Pair>, unsigned: bool) {
    forall t | t in KNOWN_ORDER && Required(t) && !(unsigned && t == "sg") :: HasTag(pairs, t)
  }

  predicate RequiredFilled(r: Record) {
    forall t | t in KNOWN_ORDER && Required(t) :: Get(r, t) != []
  }

  function CheckVersion(element: string): Parsed<string> {
    var text := Strip(element);
    if !("v=" <= text) then Err(VersionNotFirst)
    else if !Supported(text[2..]) then Err(UnsupportedVersion)
    else Ok(text[2..])
  }

  /** `DnsIdTxtRecord.parse`. */
  function Parse(raw: string): Parsed<Record> {
    var elements := Split(raw, ';');
    match CheckVersion(elements[0])
    case Err(e) => Err(e)
    case Ok(_) =>
      match ParseElements(Body(elements), false)
      case Err(e) => Err(e)
      case Ok(pairs) =>
        if !HasRequired(pairs, false) then Err(MissingTags)
        else if !RequiredFilled(Build(pairs)) then Err(EmptyRequiredTags)
        else Ok(Build(pairs))
  }

  /** The value of the `v` tag, or nothing. */
  function VersionOf(pairs: seq<Pair>): string {
    if pairs == [] then []
    else if pairs[|pairs| - 1].tag == "v" then pairs[|pairs| - 1].value
    else VersionOf(pairs[..|pairs| - 1])
  }

  /** `DnsIdTxtRecord.parse_unsigned_canonical`, with no identity to validate against. */
  function ParseUnsigned(raw: string): Parsed<Record> {
    match ParseElements(Body(Split(raw, ';')), true)
    case Err(e) => Err(e)
    case Ok(pairs) =>
      if VersionOf(pairs) == [] then Err(MissingTags)
      else if !Supported(VersionOf(pairs)) then Err(UnsupportedVersion)
      else if !HasRequired(pairs, true) then Err(MissingTags)
      else if Canonical(Build(pairs)) != raw then Err(NotCanonical)
      else Ok(Build(pairs))
  }

  // ---- Printing ----

  predicate Present(r: Record, tag: string) {
    Get(r, tag) != [] || tag in r.parsedOptional
  }

  function KnownPairs(r: Record, order: seq<string>): seq<Pair> {
    if order == [] then []
    else (if Present(r, order[0]) then [Pair(order[0], Get(r, order[0]))] else []) + KnownPairs(r, order[1..])
  }

  function AllPairs(r: Record): seq<Pair> {
    KnownPairs(r, KNOWN_ORDER) + r.unknown
  }

  function RenderAll(pairs: seq<Pair>): seq<string> {
    seq(|pairs|, i requires 0 <= i < |pairs| => Render(pairs[i]))
  }

  function Without(items: seq<string>, prefix: string): seq<string> {
    if items == [] then []
    else (if prefix <= items[0] then [] else [items[0]]) + Without(items[1..], prefix)
  }

  /** The signing form: every tag but the signature, sorted by name. */
  function Canonical(r: Record): string {
    Join(Sort(Without(RenderAll(AllPairs(r)), "sg="), true), ';')
  }

  const UNSIGNED_ORDER := ["v", "gi", "ek", "ku", "lr", "su", "fl", "ka", "cu"]

  /** The form used to compare what a registry returned: known tags only, sorted as whole strings. */
  function KnownTagsCanonical(r: Record): string {
    Join(Sort(RenderAll(KnownPairs(r, UNSIGNED_ORDER)), false), ';')
  }

  function Serialize(r: Record): string {
    "v=" + Get(r, "v") + ";" + Join(Without(RenderAll(AllPairs(r)), "v="), ';')
  }

  // ---- The parsers' loops ----

  /** The checks on one element, in the order both parsers make them. */
  method CheckElement(element: string, i: nat, seen: set<string>, unsigned: bool, ghost before: seq<Pair>)
      returns (r: Parsed<Pair>)
    requires element != [] && forall t :: t in seen <==> HasTag(before, t)
    ensures r == ParseElement(element, i, before, unsigned)
  {
    hide HasTag, ValidName, ValidValue;
    var pair := element;
    if i > 0 && pair[0] == ' ' {
      pair := pair[1..];
    }
    if '=' !in pair {
      return Err(NoEquals);
    }
    var tag, value := pair[..Find(pair, '=')], pair[Find(pair, '=') + 1..];
    if !ValidName(tag) {
      return Err(BadName);
    }
    if !ValidValue(value) {
      return Err(BadValue);
    }
    if tag in seen {
      return Err(DuplicateTag);
    }
    if unsigned && tag == "sg" {
      return Err(SignaturePresent);
    }
    return Ok(Pair(tag, value));
  }

  method SetTag(record: Record, p: Pair) returns (r: Record)
    ensures r == PutTag(record, p)
  {
    hide Put, Known, Required;
    r := record;
    if Known(p.tag) {
      if !Required(p.tag) {
        r := r.(parsedOptional := r.parsedOptional + {p.tag});
      }
      if p.value != [] || Required(p.tag) {
        r := Put(r, p.tag, p.value);
      }
    } else {
      r := r.(unknown := r.unknown + [p]);
    }
  }

  method ParseRecord(raw: string) returns (r: Parsed<Record>)
    ensures r == Parse(raw)
  {
    hide ParseElement, PutTag, Get, Required, Supported, Split, Strip, HasTag;
    var pairs := Split(raw, ';');
    var version := CheckVersion(pairs[0]);
    if version.Err? {
      return Err(version.error);
    }
    ghost var body := Body(pairs);
    ghost var done: seq<Pair> := [];
    var seen: set<string> := {};
    var record := BLANK;
    NoTags();
    var i := 0;
    while i < |pairs| && (i < |pairs| - 1 || pairs[i] != [])
      invariant 0 <= i <= |body|
      invariant ParseElements(body[..i], false) == Ok(done)
      invariant forall t :: t in seen <==> HasTag(done, t)
      invariant record == Build(done)
    {
      PrefixDecides(body, i, false);
      if pairs[i] == [] {
        EmptyIsRefused(i, done, false);
        return Err(EmptyElement);
      }
      var next := CheckElement(pairs[i], i, seen, false, done);
      if next.Err? {
        return Err(next.error);
      }
      seen := seen + {next.value.tag};
      record := SetTag(record, next.value);
      HasTagAppend(done, next.value);
      BuildAppend(done, next.value);
      done := done + [next.value];
      i := i + 1;
    }
    assert body[..|body|] == body;
    if exists t | t in KNOWN_ORDER :: Required(t) && t !in seen {
      return Err(MissingTags);
    }
    if exists t | t in KNOWN_ORDER :: Required(t) && Get(record, t) == [] {
      return Err(EmptyRequiredTags);
    }
    return Ok(record);
  }

  method ParseUnsignedCanonical(raw: string) returns (r: Parsed<Record>)
    ensures r == ParseUnsigned(raw)
  {
    hide ParseElement, PutTag, Required, Supported, Split, HasTag, Canonical;
    var pairs := Split(raw, ';');
    ghost var body := Body(pairs);
    var parsed: seq<Pair> := [];
    var seen: set<string> := {};
    var version := "";
    NoTags();
    var i := 0;
    while i < |pairs| && (i < |pairs| - 1 || pairs[i] != [])
      invariant 0 <= i <= |body|
      invariant ParseElements(body[..i], true) == Ok(parsed)
      invariant forall t :: t in seen <==> HasTag(parsed, t)
      invariant version == VersionOf(parsed)
    {
      PrefixDecides(body, i, true);
      if pairs[i] == [] {
        EmptyIsRefused(i, parsed, true);
        return Err(EmptyElement);
      }
      var next := CheckElement(pairs[i], i, seen, true, parsed);
      if next.Err? {
        return Err(next.error);
      }
      seen := seen + {next.value.tag};
      HasTagAppend(parsed, next.value);
      parsed := parsed + [next.value];
      assert parsed[..|parsed| - 1] + [next.value] == parsed;
      if next.value.tag == "v" {
        version := next.value.value;
      }
      i := i + 1;
    }
    assert body[..|body|] == body;
    if version == "" {
      return Err(MissingTags);
    }
    if !Supported(version) {
      return Err(UnsupportedVersion);
    }
    if exists t | t in KNOWN_ORDER :: Required(t) && t != "sg" && t !in seen {
      return Err(MissingTags);
    }
    var record := SetTags(parsed);
    if Canonical(record) != raw {
      return Err(NotCanonical);
    }
    return Ok(record);
  }

  /** The second loop of `parse_unsigned_canonical`. */
  method SetTags(pairs: seq<Pair>) returns (record: Record)
    ensures record == Build(pairs)
  {
    record := BLANK;
    for i := 0 to |pairs|
      invariant record == Build(pairs[..i])
    {
      record := SetTag(record, pairs[i]);
      BuildAppend(pairs[..i], pairs[i]);
      assert pairs[..i] + [pairs[i]] == pairs[..i + 1];
    }
    assert pairs[..|pairs|] == pairs;
  }

  lemma NoTags()
    ensures forall t :: !HasTag([], t)
  {
  }

  lemma EmptyIsRefused(i: nat, before: seq<Pair>, unsigned: bool)
    ensures ParseElement([], i, before, unsigned) == Err(EmptyElement)
  {
  }

  lemma BuildAppend(pairs: seq<Pair>, p: Pair)
    ensures Build(pairs + [p]) == PutTag(Build(pairs), p)
  {
  }

  lemma HasTagAppend(pairs: seq<Pair>, p: Pair)
    ensures forall t :: HasTag(pairs + [p], t) <==> HasTag(pairs, t) || t == p.tag
  {
    var more := pairs + [p];
    assert more[|pairs|] == p;
    forall t | HasTag(pairs, t)
      ensures HasTag(more, t)
    {
      var i :| 0 <= i < |pairs| && pairs[i].tag == t;
      assert more[i].tag == t;
    }
  }

  /** The outcome on a prefix decides: an error stays, and the next element is parsed after it. */
  lemma {:induction false} PrefixDecides(elements: seq<string>, i: nat, unsigned: bool)
    requires i < |elements|
    ensures ParseElements(elements[..i + 1], unsigned).Err? ==>
              ParseElements(elements, unsigned) == ParseElements(elements[..i + 1], unsigned)
    ensures ParseElements(elements[..i], unsigned).Ok? ==>
              ParseElements(elements[..i + 1], unsigned) ==
              match ParseElement(elements[i], i, ParseElements(elements[..i], unsigned).value, unsigned)
              case Err(e) => Err(e)
              case Ok(p) => Ok(ParseElements(elements[..i], unsigned).value + [p])
    decreases |elements|
  {
    hide ParseElement;
    assert elements[..i + 1][..i] == elements[..i];
    if i + 1 == |elements| {
      assert elements[..i + 1] == elements;
    } else {
      var rest := elements[..|elements| - 1];
      PrefixDecides(rest, i, unsigned);
      assert rest[..i + 1] == elements[..i + 1];
    }
  }
}
