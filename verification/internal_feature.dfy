/** The internal-feature enum of SimpleNLG: the closed set of attribute
    keys that the realiser's own processors read and write on syntax-tree
    elements, each declared with an explicit integer value. */
module InternalFeatures {

  import opened Wrappers

  /** One constructor per member of the C# enum, in declaration order. */
  datatype InternalFeature =
    | Acronym
    | BaseWord
    | ClauseStatus
    | Complements
    | Components
    | Coordinates
    | DiscourseFunction
    | NonMorph
    | FrontModifiers
    | Head
    | IgnoreModal
    | Interrogative
    | PostModifiers
    | PreModifiers
    | Raised
    | RealiseAuxiliary
    | Specifier
    | Subjects
    | VerbPhrase

  /** The explicit integer value each member is declared with. Values run
      from 1000 to 1020; 1003 and 1009 are never assigned. */
  function Code(f: InternalFeature): (r: int)
    ensures 1000 <= r <= 1020
    ensures r != 1003 && r != 1009
  {
    match f
    case Acronym => 1000
    case BaseWord => 1001
    case ClauseStatus => 1002
    case Complements => 1004
    case Components => 1005
    case Coordinates => 1006
    case DiscourseFunction => 1007
    case NonMorph => 1008
    case FrontModifiers => 1010
    case Head => 1011
    case IgnoreModal => 1012
    case Interrogative => 1013
    case PostModifiers => 1014
    case PreModifiers => 1015
    case Raised => 1016
    case RealiseAuxiliary => 1017
    case Specifier => 1018
    case Subjects => 1019
    case VerbPhrase => 1020
  }

  /** Every member exactly once, in declaration order (which is also
      increasing code order): the enumeration of the whole catalogue. */
  function AllFeatures(): (r: seq<InternalFeature>)
    ensures |r| == 19
    ensures forall i, j :: 0 <= i < j < |r| ==> Code(r[i]) < Code(r[j])
  {
    [ Acronym, BaseWord, ClauseStatus, Complements, Components, Coordinates,
      DiscourseFunction, NonMorph, FrontModifiers, Head, IgnoreModal,
      Interrogative, PostModifiers, PreModifiers, Raised, RealiseAuxiliary,
      Specifier, Subjects, VerbPhrase ]
  }

  /** Where each member stands in the enumeration: its declaration index. */
  function Position(f: InternalFeature): (k: nat)
    ensures k < |AllFeatures()| && AllFeatures()[k] == f
  {
    match f
    case Acronym => 0
    case BaseWord => 1
    case ClauseStatus => 2
    case Complements => 3
    case Components => 4
    case Coordinates => 5
    case DiscourseFunction => 6
    case NonMorph => 7
    case FrontModifiers => 8
    case Head => 9
    case IgnoreModal => 10
    case Interrogative => 11
    case PostModifiers => 12
    case PreModifiers => 13
    case Raised => 14
    case RealiseAuxiliary => 15
    case Specifier => 16
    case Subjects => 17
    case VerbPhrase => 18
  }

  /** The member an integer denotes when cast to the enum, or None when the
      integer is none of the declared values (C# lets any int be cast to an
      int-backed enum; such a value equals no member). */
  function FromCode(i: int): (r: Option<InternalFeature>)
    ensures r.Some? ==> Code(r.value) == i
    ensures r.None? <==> forall f :: Code(f) != i
  {
    if i == 1000 then Some(Acronym)
    else if i == 1001 then Some(BaseWord)
    else if i == 1002 then Some(ClauseStatus)
    else if i == 1004 then Some(Complements)
    else if i == 1005 then Some(Components)
    else if i == 1006 then Some(Coordinates)
    else if i == 1007 then Some(DiscourseFunction)
    else if i == 1008 then Some(NonMorph)
    else if i == 1010 then Some(FrontModifiers)
    else if i == 1011 then Some(Head)
    else if i == 1012 then Some(IgnoreModal)
    else if i == 1013 then Some(Interrogative)
    else if i == 1014 then Some(PostModifiers)
    else if i == 1015 then Some(PreModifiers)
    else if i == 1016 then Some(Raised)
    else if i == 1017 then Some(RealiseAuxiliary)
    else if i == 1018 then Some(Specifier)
    else if i == 1019 then Some(Subjects)
    else if i == 1020 then Some(VerbPhrase)
    else None
  }

  /** The member identifier exactly as declared in the enum. */
  function Identifier(f: InternalFeature): (r: string)
    ensures r != "" && 'A' <= r[0] <= 'Z'
  {
    match f
    case Acronym => "ACRONYM"
    case BaseWord => "BASE_WORD"
    case ClauseStatus => "CLAUSE_STATUS"
    case Complements => "COMPLEMENTS"
    case Components => "COMPONENTS"
    case Coordinates => "COORDINATES"
    case DiscourseFunction => "DISCOURSE_FUNCTION"
    case NonMorph => "NON_MORPH"
    case FrontModifiers => "FRONT_MODIFIERS"
    case Head => "HEAD"
    case IgnoreModal => "IGNORE_MODAL"
    case Interrogative => "INTERROGATIVE"
    case PostModifiers => "POSTMODIFIERS"
    case PreModifiers => "PREMODIFIERS"
    case Raised => "RAISED"
    case RealiseAuxiliary => "REALISE_AUXILIARY"
    case Specifier => "SPECIFIER"
    case Subjects => "SUBJECTS"
    case VerbPhrase => "VERB_PHRASE"
  }

  /** The name recorded in the trailing comment of each enum declaration. */
  function CommentName(f: InternalFeature): (r: string)
    ensures r != "" && 'a' <= r[0] <= 'z'
    ensures r[0] as int == Identifier(f)[0] as int + 32
  {
    match f
    case Acronym => "acronym"
    case BaseWord => "base_word"
    case ClauseStatus => "clause_status"
    case Complements => "complements"
    case Components => "components"
    case Coordinates => "coordinates"
    case DiscourseFunction => "discourse_function"
    case NonMorph => "non_morph"
    case FrontModifiers => "front_modifiers"
    case Head => "head"
    case IgnoreModal => "ignore_modal"
    case Interrogative => "interrogative"
    case PostModifiers => "postmodifiers"
    case PreModifiers => "premodifiers"
    case Raised => "raised"
    case RealiseAuxiliary => "realise_auxiliary"
    case Specifier => "specifier"
    case Subjects => "subjects"
    case VerbPhrase => "verb_phrase"
  }

  /** Distinct members are declared with distinct values. */
  lemma CodeInjective(f: InternalFeature)
    ensures forall g :: Code(g) == Code(f) ==> g == f
  {
  }

  /** Casting a member's value back to the enum gives that member: the
      declaration table and the cast agree. */
  lemma FromCodeRoundTrip(f: InternalFeature)
    ensures FromCode(Code(f)) == Some(f)
  {
    CodeInjective(f);
  }

  /** The declared values are exactly 1000..1020 without 1003 and 1009. */
  lemma DeclaredCodes(i: int)
    ensures FromCode(i).Some? <==> 1000 <= i <= 1020 && i != 1003 && i != 1009
  {
  }

  /** The enumeration lists every member exactly once: position k holds f
      precisely when k is f's declaration index. */
  lemma AllFeaturesOnce(f: InternalFeature, k: int)
    requires 0 <= k < |AllFeatures()|
    ensures AllFeatures()[k] == f <==> k == Position(f)
  {
  }

}
