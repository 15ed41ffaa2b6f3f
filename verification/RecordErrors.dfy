/** Which error a text is refused with, said of the text: by its first element that is at fault, or by the tags
    it lacks. */
module RecordErrors {
  import opened Texts
  import opened Records
  import opened RecordFacts
  import opened RecordTheorems
  import opened RecordRoundTrips
  import opened RecordBytes

  function TagsOf(pairs: seq<Pair>): set<string> {
    set p | p in pairs :: p.tag
  }

  /** The text is this name and value. */
  predicate Splits(text: string, name: string, value: string) {
    text == name + "=" + value && '=' !in name
  }

  /** What the i-th element is refused with, after elements with these tags: one space after a semicolon is passed
      over; then the equals sign, the name, the value, a repeated tag, and a signature where none belongs. */
  ghost predicate ElementFault(element: string, i: nat, tags: set<string>, unsigned: bool, e: ParseError) {
    if element == "" then e == EmptyElement
    else
      var text := if i > 0 && element[0] == ' ' then element[1..] else element;
      match e
      case NoEquals => '=' !in text
      case BadName => exists name, value :: Splits(text, name, value) && !NameOk(name)
      case BadValue => exists name, value :: Splits(text, name, value) && NameOk(name) && !ValueOk(value)
      case DuplicateTag =>
        exists name, value :: Splits(text, name, value) && NameOk(name) && ValueOk(value) && name in tags
      case SignaturePresent =>
        && unsigned && "sg" !in tags && exists value :: Splits(text, "sg", value) && ValueOk(value)
      case _ => false
  }

  lemma SplitsAtTheFirst(text: string, name: string, value: string)
    ensures Splits(text, name, value) <==>
            '=' in text && name == text[..Find(text, '=')] && value == text[Find(text, '=') + 1..]
  {
    hide Find;
    if Splits(text, name, value) {
      FindAfter(name, '=', value);
      assert text == name + ['='] + value;
    }
  }

  lemma TextFails(text: string, before: seq<Pair>, unsigned: bool, e: ParseError)
    ensures ParseText(text, before, unsigned) == Err(e) <==>
            match e
            case NoEquals => '=' !in text
            case BadName => exists name, value :: Splits(text, name, value) && !NameOk(name)
            case BadValue => exists name, value :: Splits(text, name, value) && NameOk(name) && !ValueOk(value)
            case DuplicateTag =>
              exists name, value ::
                  Splits(text, name, value) && NameOk(name) && ValueOk(value) && name in TagsOf(before)
            case SignaturePresent =>
              unsigned && "sg" !in TagsOf(before) && exists value :: Splits(text, "sg", value) && ValueOk(value)
            case _ => false
  {
    hide Splits, ValidName, ValidValue, NameOk, ValueOk, Find;
    if '=' in text {
      var name, value := text[..Find(text, '=')], text[Find(text, '=') + 1..];
      forall n, v
        ensures Splits(text, n, v) <==> n == name && v == value
      {
        SplitsAtTheFirst(text, n, v);
      }
      assert Splits(text, name, value);
      NamesAndValues(name);
      NamesAndValues(value);
      SignatureIsAName();
      HasTagMeans(before, name);
    } else {
      forall n, v
        ensures !Splits(text, n, v)
      {
        SplitsAtTheFirst(text, n, v);
      }
    }
  }

  lemma SignatureIsAName()
    ensures NameOk("sg")
  {
  }

  lemma HasTagMeans(pairs: seq<Pair>, tag: string)
    ensures HasTag(pairs, tag) <==> tag in TagsOf(pairs)
  {
    if HasTag(pairs, tag) {
      var i :| 0 <= i < |pairs| && pairs[i].tag == tag;
      assert pairs[i] in pairs;
    }
  }

  /** The first element at fault decides. */
  lemma {:induction false} ElementsFailExactly(elements: seq<string>, unsigned: bool, e: ParseError)
    ensures ParseElements(elements, unsigned) == Err(e) <==> FirstFault(elements, unsigned, e)
  {
    hide ElementFault, ParseElement;
    if elements != [] {
      var n := |elements| - 1;
      ElementsFailExactly(elements[..n], unsigned, e);
      if ParseElements(elements[..n], unsigned).Ok? {
        var before := ParseElements(elements[..n], unsigned).value;
        ElementFails(elements[n], n, before, unsigned, e);
        assert ParseElement(elements[n], n, before, unsigned) == Err(e) <==> FaultAt(elements, n, unsigned, e);
        if FirstFault(elements, unsigned, e) {
          var i :| 0 <= i < |elements| && FaultAt(elements, i, unsigned, e);
          if i < n {
            assert elements[..n][..i] == elements[..i];
            FaultStays(elements, i, unsigned, e);
          }
        }
      } else {
        if FirstFault(elements[..n], unsigned, e) {
          var i :| 0 <= i < n && FaultAt(elements[..n], i, unsigned, e);
          assert elements[..n][..i] == elements[..i];
          assert FaultAt(elements, i, unsigned, e);
        }
        if FirstFault(elements, unsigned, e) {
          var i :| 0 <= i < |elements| && FaultAt(elements, i, unsigned, e);
          assert i < n;
          assert elements[..n][..i] == elements[..i];
          assert FaultAt(elements[..n], i, unsigned, e);
        }
      }
    }
  }

  /** Everything before this element is in order, and it is at fault. */
  ghost predicate FaultAt(elements: seq<string>, i: nat, unsigned: bool, e: ParseError)
    requires i < |elements|
  {
    && ParseElements(elements[..i], unsigned).Ok?
    && ElementFault(elements[i], i, TagsOf(ParseElements(elements[..i], unsigned).value), unsigned, e)
  }

  ghost predicate FirstFault(elements: seq<string>, unsigned: bool, e: ParseError) {
    exists i | 0 <= i < |elements| :: FaultAt(elements, i, unsigned, e)
  }

  lemma FaultStays(elements: seq<string>, i: nat, unsigned: bool, e: ParseError)
    requires i < |elements| && FaultAt(elements, i, unsigned, e)
    ensures ParseElements(elements, unsigned) == Err(e)
  {
    hide ElementFault, ParseElement;
    ElementFails(elements[i], i, ParseElements(elements[..i], unsigned).value, unsigned, e);
    PrefixDecides(elements, i, unsigned);
  }

  lemma ElementFails(element: string, i: nat, before: seq<Pair>, unsigned: bool, e: ParseError)
    ensures ParseElement(element, i, before, unsigned) == Err(e) <==>
            ElementFault(element, i, TagsOf(before), unsigned, e)
  {
    hide ParseText, Splits, NameOk, ValueOk, TagsOf;
    if element != [] {
      TextFails(if i > 0 && element[0] == ' ' then element[1..] else element, before, unsigned, e);
    }
  }

  const REQUIRED_TAGS := ["v", "gi", "ek", "ku", "lr", "su", "sg"]

  /** Why a published text is refused. */
  ghost predicate Refused(raw: string, e: ParseError) {
    var elements := Split(raw, ';');
    var head := Strip(elements[0]);
    if !("v=" <= head) then e == VersionNotFirst
    else if head != "v=dnsid-draft-01" && head != "v=DNSid1" then e == UnsupportedVersion
    else match ParseElements(Body(elements), false)
         case Err(_) => FirstFault(Body(elements), false, e)
         case Ok(pairs) =>
           if exists t | t in REQUIRED_TAGS :: t !in TagsOf(pairs) then e == MissingTags
           else e == EmptyRequiredTags && exists p | p in pairs :: p.tag in REQUIRED_TAGS && p.value == ""
  }

  /** A text is refused with this error exactly when: it does not begin with a version; with an unsupported one;
      its first element at fault has this fault; it lacks a required tag; or one of them is empty; in this order. */
  lemma ParseFailsExactly(raw: string, e: ParseError)
    ensures Parse(raw) == Err(e) <==> Refused(raw, e)
  {
    hide Split, Strip, ParseElements, FirstFault, Build, TagsOf, HasRequired, RequiredFilled;
    var elements := Split(raw, ';');
    VersionFails(elements[0]);
    ElementsFailExactly(Body(elements), false, e);
    match ParseElements(Body(elements), false)
    case Err(_) =>
    case Ok(pairs) =>
      ElementsMean(Body(elements), false);
      MissingMeans(pairs, false);
      if HasRequired(pairs, false) {
        RequiredFilledMeans(pairs);
        EmptyMeans(pairs);
      }
  }

  lemma VersionFails(element: string)
    ensures var head := Strip(element);
            && (CheckVersion(element) == Err(VersionNotFirst) <==> !("v=" <= head))
            && (CheckVersion(element) == Err(UnsupportedVersion) <==>
                "v=" <= head && head != "v=dnsid-draft-01" && head != "v=DNSid1")
            && (CheckVersion(element).Err? ==>
                  CheckVersion(element).error == VersionNotFirst || CheckVersion(element).error == UnsupportedVersion)
  {
    hide Strip;
    var head := Strip(element);
    if "v=" <= head {
      assert head == "v=" + head[2..];
      assert "v=dnsid-draft-01"[2..] == DRAFT_01 && "v=DNSid1"[2..] == DNSID_1;
      assert "v=" + DRAFT_01 == "v=dnsid-draft-01" && "v=" + DNSID_1 == "v=DNSid1";
    }
  }

  lemma MissingMeans(pairs: seq<Pair>, unsigned: bool)
    ensures !HasRequired(pairs, unsigned) <==>
            exists t | t in REQUIRED_TAGS && !(unsigned && t == "sg") :: t !in TagsOf(pairs)
  {
    hide HasTag, TagsOf;
    forall t
      ensures t in REQUIRED_TAGS <==> t in KNOWN_ORDER && Required(t)
      ensures HasTag(pairs, t) <==> t in TagsOf(pairs)
    {
      HasTagMeans(pairs, t);
    }
  }

  lemma EmptyMeans(pairs: seq<Pair>)
    ensures !NoEmptyRequired(pairs) <==> exists p | p in pairs :: p.tag in REQUIRED_TAGS && p.value == ""
  {
    forall t
      ensures t in REQUIRED_TAGS <==> Required(t)
    {
    }
    if !NoEmptyRequired(pairs) {
      var i :| 0 <= i < |pairs| && Required(pairs[i].tag) && pairs[i].value == [];
      assert pairs[i] in pairs;
    }
  }

  /** Why a text is refused as an unsigned canonical form. */
  ghost predicate RefusedUnsigned(raw: string, e: ParseError) {
    match ParseElements(Body(Split(raw, ';')), true)
    case Err(_) => FirstFault(Body(Split(raw, ';')), true, e)
    case Ok(pairs) =>
      if forall p | p in pairs && p.tag == "v" :: p.value == "" then e == MissingTags
      else if forall p | p in pairs && p.tag == "v" :: p.value != "dnsid-draft-01" && p.value != "DNSid1"
      then e == UnsupportedVersion
      else if exists t | t in REQUIRED_TAGS && t != "sg" :: t !in TagsOf(pairs) then e == MissingTags
      else e == NotCanonical && Canonical(Build(pairs)) != raw
  }

  lemma UnsignedFailsExactly(raw: string, e: ParseError)
    ensures ParseUnsigned(raw) == Err(e) <==> RefusedUnsigned(raw, e)
  {
    hide Split, ParseElements, FirstFault, Build, TagsOf, HasRequired, Canonical, VersionOf, Supported, Body;
    var elements := Body(Split(raw, ';'));
    ElementsFailExactly(elements, true, e);
    match ParseElements(elements, true)
    case Err(_) =>
    case Ok(pairs) =>
      ElementsMean(elements, true);
      MissingMeans(pairs, true);
      TheVersion(pairs);
  }

  lemma TheVersion(pairs: seq<Pair>)
    requires DistinctTags(pairs)
    ensures VersionOf(pairs) == [] <==> forall p | p in pairs && p.tag == "v" :: p.value == ""
    ensures VersionOf(pairs) != [] ==>
              (!Supported(VersionOf(pairs)) <==>
               forall p | p in pairs && p.tag == "v" :: p.value != "dnsid-draft-01" && p.value != "DNSid1")
  {
    hide VersionOf;
    forall p | p in pairs && p.tag == "v"
      ensures VersionOf(pairs) == p.value
    {
      assert p == Pair("v", p.value);
      VersionOfMeans(pairs, p.value);
    }
    if VersionOf(pairs) != [] {
      VersionOfFound(pairs);
    }
  }
}
