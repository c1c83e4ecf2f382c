/** The value type and default that the documentation table of each
    internal feature declares. The tables are prose in the source; here
    they become a total function, None where a member has no table. */
module FeatureMetadata {

  import opened Wrappers
  import opened InternalFeatures

  /** Classes of syntax-tree element a single-element feature refers to. */
  datatype ElementClass = NLGElement | WordElement

  /** The enumerations a feature value can be drawn from. */
  datatype EnumKind = ClauseStatusKind | DiscourseFunctionKind

  /** The documented expected type of a feature's value. */
  datatype ValueShape =
    | BooleanFlag                  // Boolean
    | Element(cls: ElementClass)   // one element of the given class
    | ElementOrString              // an NLGElement or a plain string
    | ElementList                  // a list of NLGElements
    | EnumValue(kind: EnumKind)    // a constant of an enumeration

  /** The documented default of a feature. */
  datatype DefaultValue =
    | False                                          // Boolean.FALSE
    | Null                                           // null
    | EnumConstant(kind: EnumKind, constant: string) // e.g. ClauseStatus.MATRIX
    | FactorySupplied                                // chosen by the phrase factory

  datatype Metadata = Metadata(shape: ValueShape, default: DefaultValue)

  /** Whether a default is a value of the shape it is the default for:
      false only for flags, null for every reference-typed shape, an enum
      constant only for its own enumeration, and a factory-chosen value only
      for a single element. */
  predicate DefaultFits(m: Metadata) {
    match m.default
    case False => m.shape == BooleanFlag
    case Null => m.shape != BooleanFlag
    case EnumConstant(k, _) => m.shape == EnumValue(k)
    case FactorySupplied => m.shape.Element?
  }

  /** The five features documented as Boolean flags defaulting to false. */
  predicate IsFlag(f: InternalFeature) {
    f == Acronym || f == IgnoreModal || f == Interrogative || f == Raised || f == RealiseAuxiliary
  }

  /** The six features documented as lists of elements. */
  predicate IsElementList(f: InternalFeature) {
    f == Complements || f == Components || f == Coordinates
    || f == PostModifiers || f == PreModifiers || f == Subjects
  }

  /** The tables exactly as the documentation comments give them. The
      complements table names a list type but gives ClauseStatus.MATRIX as
      its default. NonMorph has no table. */
  function DocumentedMetadata(f: InternalFeature): (r: Option<Metadata>)
    ensures r.None? <==> f == NonMorph
    ensures r.Some? ==> (DefaultFits(r.value) <==> f != Complements)
    ensures (r.Some? && r.value.default.EnumConstant?) <==> f == ClauseStatus || f == Complements
  {
    match f
    case Acronym => Some(Metadata(BooleanFlag, False))
    case BaseWord => Some(Metadata(Element(WordElement), Null))
    case ClauseStatus => Some(Metadata(EnumValue(ClauseStatusKind), EnumConstant(ClauseStatusKind, "MATRIX")))
    case Complements => Some(Metadata(ElementList, EnumConstant(ClauseStatusKind, "MATRIX")))
    case Components => Some(Metadata(ElementList, Null))
    case Coordinates => Some(Metadata(ElementList, Null))
    case DiscourseFunction => Some(Metadata(EnumValue(DiscourseFunctionKind), Null))
    case NonMorph => None
    case FrontModifiers => Some(Metadata(Element(NLGElement), Null))
    case Head => Some(Metadata(Element(NLGElement), FactorySupplied))
    case IgnoreModal => Some(Metadata(BooleanFlag, False))
    case Interrogative => Some(Metadata(BooleanFlag, False))
    case PostModifiers => Some(Metadata(ElementList, Null))
    case PreModifiers => Some(Metadata(ElementList, Null))
    case Raised => Some(Metadata(BooleanFlag, False))
    case RealiseAuxiliary => Some(Metadata(BooleanFlag, False))
    case Specifier => Some(Metadata(ElementOrString, Null))
    case Subjects => Some(Metadata(ElementList, Null))
    case VerbPhrase => Some(Metadata(ElementOrString, Null))
  }

  /** The complements table as written: its default is not a list. */
  lemma ComplementsDefaultMisfits()
    ensures DocumentedMetadata(Complements) == Some(Metadata(ElementList, EnumConstant(ClauseStatusKind, "MATRIX")))
    ensures !DefaultFits(DocumentedMetadata(Complements).value)
  {
  }

  /** The tables with the complements default read as null, like every
      other list feature: every documented default is then a value of its
      documented type. */
  function Meta(f: InternalFeature): (r: Option<Metadata>)
    ensures r.None? <==> f == NonMorph
    ensures r.Some? ==> DefaultFits(r.value)
  {
    if f == Complements then Some(Metadata(ElementList, Null))
    else DocumentedMetadata(f)
  }

  /** The correction touches the complements default and nothing else. */
  lemma MetaDiffersOnlyOnComplements(f: InternalFeature)
    ensures Meta(f) == DocumentedMetadata(f) <==> f != Complements
    ensures Meta(f).Some? && DocumentedMetadata(f).Some? ==> Meta(f).value.shape == DocumentedMetadata(f).value.shape
  {
  }

  /** Exactly the five flags are Boolean-typed with default false. */
  lemma FlagsDefaultFalse(f: InternalFeature)
    ensures Meta(f) == Some(Metadata(BooleanFlag, False)) <==> IsFlag(f)
    ensures (Meta(f).Some? && Meta(f).value.shape == BooleanFlag) <==> IsFlag(f)
  {
  }

  /** Exactly the six list features are list-typed, and each defaults to
      null; as documented, complements alone departs from that. */
  lemma ListsDefaultNull(f: InternalFeature)
    ensures (Meta(f).Some? && Meta(f).value.shape == ElementList) <==> IsElementList(f)
    ensures IsElementList(f) ==> Meta(f).value.default == Null
    ensures IsElementList(f) ==> (DocumentedMetadata(f).value.default == Null <==> f != Complements)
  {
  }

  /** Clause status is the only feature documented with an enum-constant
      default, and that default is MATRIX; the head is the only one whose
      default the phrase factory supplies. */
  lemma SpecialDefaults(f: InternalFeature)
    ensures (Meta(f).Some? && Meta(f).value.default.EnumConstant?) <==> f == ClauseStatus
    ensures f == ClauseStatus ==> Meta(f).value.default == EnumConstant(ClauseStatusKind, "MATRIX")
    ensures (Meta(f).Some? && Meta(f).value.default == FactorySupplied) <==> f == Head
  {
  }

}
