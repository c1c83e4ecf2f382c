/** Naming conventions of the catalogue: every canonical name is the
    declared member identifier lower-cased, is a snake-case ASCII word, and
    agrees with the name recorded in the trailing comment of the member's
    declaration. */
module NameConventions {

  import opened Ascii
  import opened InternalFeatures
  import opened InternalFeatureExtensions

  /** The canonical name of a member is its identifier lower-cased. */
  lemma NameIsLoweredIdentifier(f: InternalFeature)
    ensures Name(f) == ToLower(Identifier(f))
  {
    match f
    case Acronym => LoweredAcronym();
    case BaseWord => LoweredBaseWord();
    case ClauseStatus => LoweredClauseStatus();
    case Complements => LoweredComplements();
    case Components => LoweredComponents();
    case Coordinates => LoweredCoordinates();
    case DiscourseFunction => LoweredDiscourseFunction();
    case NonMorph => LoweredNonMorph();
    case FrontModifiers => LoweredFrontModifiers();
    case Head => LoweredHead();
    case IgnoreModal => LoweredIgnoreModal();
    case Interrogative => LoweredInterrogative();
    case PostModifiers => LoweredPostModifiers();
    case PreModifiers => LoweredPreModifiers();
    case Raised => LoweredRaised();
    case RealiseAuxiliary => LoweredRealiseAuxiliary();
    case Specifier => LoweredSpecifier();
    case Subjects => LoweredSubjects();
    case VerbPhrase => LoweredVerbPhrase();
  }

  /** Every canonical name is a non-empty word of lower-case ASCII letters
      and underscores. */
  lemma NameIsSnake(f: InternalFeature)
    ensures IsSnakeName(Name(f))
  {
    if Code(f) < 1005 {
      SnakeNamesFrom1000(f);
    } else if Code(f) < 1010 {
      SnakeNamesFrom1005(f);
    } else if Code(f) < 1014 {
      SnakeNamesFrom1010(f);
    } else if Code(f) < 1018 {
      SnakeNamesFrom1014(f);
    } else {
      SnakeNamesFrom1018(f);
    }
  }

  /** The name switch and the trailing comments of the declarations agree. */
  lemma NameMatchesComment(f: InternalFeature)
    ensures Name(f) == CommentName(f)
  {
  }

  // The character-level facts. Checking every literal in one obligation
  // costs the solver close to its limit, so the names are checked in five
  // groups by declared value, and the lower-casing one literal at a time.

  lemma SnakeNamesFrom1000(f: InternalFeature)
    requires 1000 <= Code(f) < 1005
    ensures IsSnakeName(Name(f))
  {
  }

  lemma SnakeNamesFrom1005(f: InternalFeature)
    requires 1005 <= Code(f) < 1010
    ensures IsSnakeName(Name(f))
  {
  }

  lemma SnakeNamesFrom1010(f: InternalFeature)
    requires 1010 <= Code(f) < 1014
    ensures IsSnakeName(Name(f))
  {
  }

  lemma SnakeNamesFrom1014(f: InternalFeature)
    requires 1014 <= Code(f) < 1018
    ensures IsSnakeName(Name(f))
  {
  }

  lemma SnakeNamesFrom1018(f: InternalFeature)
    requires 1018 <= Code(f) < 1021
    ensures IsSnakeName(Name(f))
  {
  }

  lemma LoweredAcronym() ensures Name(Acronym) == ToLower(Identifier(Acronym)) {}
  lemma LoweredBaseWord() ensures Name(BaseWord) == ToLower(Identifier(BaseWord)) {}
  lemma LoweredClauseStatus() ensures Name(ClauseStatus) == ToLower(Identifier(ClauseStatus)) {}
  lemma LoweredComplements() ensures Name(Complements) == ToLower(Identifier(Complements)) {}
  lemma LoweredComponents() ensures Name(Components) == ToLower(Identifier(Components)) {}
  lemma LoweredCoordinates() ensures Name(Coordinates) == ToLower(Identifier(Coordinates)) {}
  lemma LoweredDiscourseFunction() ensures Name(DiscourseFunction) == ToLower(Identifier(DiscourseFunction)) {}
  lemma LoweredNonMorph() ensures Name(NonMorph) == ToLower(Identifier(NonMorph)) {}
  lemma LoweredFrontModifiers() ensures Name(FrontModifiers) == ToLower(Identifier(FrontModifiers)) {}
  lemma LoweredHead() ensures Name(Head) == ToLower(Identifier(Head)) {}
  lemma LoweredIgnoreModal() ensures Name(IgnoreModal) == ToLower(Identifier(IgnoreModal)) {}
  lemma LoweredInterrogative() ensures Name(Interrogative) == ToLower(Identifier(Interrogative)) {}
  lemma LoweredPostModifiers() ensures Name(PostModifiers) == ToLower(Identifier(PostModifiers)) {}
  lemma LoweredPreModifiers() ensures Name(PreModifiers) == ToLower(Identifier(PreModifiers)) {}
  lemma LoweredRaised() ensures Name(Raised) == ToLower(Identifier(Raised)) {}
  lemma LoweredRealiseAuxiliary() ensures Name(RealiseAuxiliary) == ToLower(Identifier(RealiseAuxiliary)) {}
  lemma LoweredSpecifier() ensures Name(Specifier) == ToLower(Identifier(Specifier)) {}
  lemma LoweredSubjects() ensures Name(Subjects) == ToLower(Identifier(Subjects)) {}
  lemma LoweredVerbPhrase() ensures Name(VerbPhrase) == ToLower(Identifier(VerbPhrase)) {}

}
