/** The static name switch of the extension class: the canonical name of
    every internal feature, the same switch applied to an arbitrary value of
    the int-backed enum, and the reverse lookup from names to members. */
module InternalFeatureExtensions {

  import opened Wrappers
  import opened InternalFeatures

  /** The case arms of the name switch: the canonical name of a declared
      member. */
  function Name(f: InternalFeature): (r: string)
    ensures r != ""
  {
    match f
    case Acronym => "acronym"
    case BaseWord => "base_word"
    case ClauseStatus => "clause_status"
    case Complements => "complements"
    case Components => "components"
    case Coordinates => "coordinates"
    case DiscourseFunction => "discourse_function"
    case NonMorph => "non_morph"
    case FrontModifiers => "front_modifiers"
    case Head => "head"
    case IgnoreModal => "ignore_modal"
    case Interrogative => "interrogative"
    case PostModifiers => "postmodifiers"
    case PreModifiers => "premodifiers"
    case Raised => "raised"
    case RealiseAuxiliary => "realise_auxiliary"
    case Specifier => "specifier"
    case Subjects => "subjects"
    case VerbPhrase => "verb_phrase"
  }

  /** The whole static name switch, applied to an enum value given by its
      underlying integer: a declared value gets its member's name, any other
      value falls to the default arm and gets the empty string. */
  function ToString(v: int): (r: string)
    ensures r == "" <==> forall f :: Code(f) != v
    ensures forall f :: Code(f) == v ==> r == Name(f)
  {
    match FromCode(v)
    case Some(f) => CodeInjective(f); Name(f)
    case None => ""
  }

  /** The first member of `fs` whose canonical name is `s`. */
  function FindByName(s: string, fs: seq<InternalFeature>): (r: Option<InternalFeature>)
    ensures r.Some? ==> r.value in fs && Name(r.value) == s
    ensures r.None? <==> forall k :: 0 <= k < |fs| ==> Name(fs[k]) != s
    decreases |fs|
  {
    if |fs| == 0 then None
    else if Name(fs[0]) == s then Some(fs[0])
    else FindByName(s, fs[1..])
  }

  /** Reverse lookup: the member whose canonical name is `s`, found by
      scanning the enumeration through the name switch. */
  function Lookup(s: string): (r: Option<InternalFeature>)
    ensures r.Some? ==> Name(r.value) == s
    ensures r.None? <==> forall k :: 0 <= k < |AllFeatures()| ==> Name(AllFeatures()[k]) != s
  {
    FindByName(s, AllFeatures())
  }

  /** Distinct members have distinct canonical names. */
  lemma NameInjective(f: InternalFeature, g: InternalFeature)
    ensures Name(f) == Name(g) ==> f == g
  {
  }

  /** Looking up a member's canonical name finds that member. */
  lemma LookupRoundTrip(f: InternalFeature)
    ensures Lookup(Name(f)) == Some(f)
  {
    var k := Position(f);
    assert Name(AllFeatures()[k]) == Name(f);
    NameInjective(f, Lookup(Name(f)).value);
  }

  /** Lookup finds f exactly when s is f's canonical name. */
  lemma LookupFinds(s: string, f: InternalFeature)
    ensures Lookup(s) == Some(f) <==> Name(f) == s
  {
    if Name(f) == s {
      LookupRoundTrip(f);
    }
  }

  /** Lookup fails exactly on strings the switch never produces for a
      declared member. */
  lemma LookupFails(s: string)
    ensures Lookup(s) == None <==> forall f :: Name(f) != s
  {
    if exists f :: Name(f) == s {
      var f :| Name(f) == s;
      LookupRoundTrip(f);
    }
  }

  /** In particular the empty string, the switch's default result, names
      no member. */
  lemma LookupEmpty()
    ensures Lookup("") == None
  {
    LookupFails("");
  }

  /** The switch falls to its default arm, and yields the empty string,
      exactly on the undeclared values: everything outside 1000..1020,
      and 1003 and 1009. */
  lemma ToStringUndeclared(v: int)
    ensures ToString(v) == "" <==> v < 1000 || v > 1020 || v == 1003 || v == 1009
  {
    DeclaredCodes(v);
  }

  /** A non-empty result of the switch identifies exactly one member: the
      one with that value, which the reverse lookup recovers. */
  lemma ToStringIdentifies(v: int)
    ensures ToString(v) != "" ==> FromCode(v).Some? && Lookup(ToString(v)) == FromCode(v)
  {
    if ToString(v) != "" {
      LookupRoundTrip(FromCode(v).value);
    }
  }

}
