# SimpleNLG internal-feature catalogue in Dafny

SimpleNLG (here its C# port, SharpSimpleNLG) realises syntax trees into text.
Its processors pass information along the tree through *internal features*:
attribute keys such as `subjects`, `head` or `interrogative` that are stored
on the elements of the tree. The enum `InternalFeature` declares the closed
set of these keys. Each member has an explicit integer value. The static
switch `InternalFeatureExtensions.ToString` gives each member its canonical
lower-case name. The documentation comment of each member except NON_MORPH
gives the expected value type and the default.

The model has six modules:

- `Wrappers` holds `Option`. The C# code signals "no such member" with an
  undeclared enum value or an empty string; the model uses `None`.
- `Ascii` holds the character predicates the names are stated in.
- `InternalFeatures` models the enum. It has 19 constructors in declaration
  order. `Code` gives each member's declared value. `FromCode` models casting
  an int to the enum: any int can be cast, and only declared values denote a
  member. `AllFeatures` lists every member once, and `Position` gives each
  member's index in that list. `Identifier` is the member's identifier as
  declared. `CommentName` is the name in the trailing `// = "..."` comment.
- `InternalFeatureExtensions` models the switch. `Name` holds its case arms.
  `ToString` is the whole switch applied to an arbitrary underlying value,
  including the `default` arm that returns `""`. `Lookup` is the reverse
  lookup from a name to a member. It scans `AllFeatures` through `Name`.
- `NameConventions` proves that each name is the identifier lower-cased, is
  snake-case ASCII, and agrees with the trailing comment.
- `FeatureMetadata` encodes the documentation tables as a function from
  member to value shape and default.

The code declares 19 members, ACRONYM through VERB_PHRASE.

## Model

| member | source | states |
|---|---|---|
| InternalFeatures.Code | SharpSimpleNLGDotNetCore/features/InternalFeature.cs:29-662 | every declared value lies in 1000..1020 and is neither 1003 nor 1009 |
| InternalFeatures.FromCode | SharpSimpleNLGDotNetCore/features/InternalFeature.cs:29-662 | casting an int gives a member whose declared value is that int, and gives None exactly when no member is declared with it |
| InternalFeatures.AllFeatures | SharpSimpleNLGDotNetCore/features/InternalFeature.cs:29-662 | the enumeration has 19 entries, and their values strictly increase in declaration order, so no value repeats |
| InternalFeatures.Position | SharpSimpleNLGDotNetCore/features/InternalFeature.cs:29-662 | every member has a declaration index at which the enumeration holds that member, so the enumeration leaves no member out |
| InternalFeatures.Identifier | SharpSimpleNLGDotNetCore/features/InternalFeature.cs:64-662 | each member's identifier as declared (ACRONYM … VERB_PHRASE); every one is non-empty and starts with an upper-case letter |
| InternalFeatures.CommentName | SharpSimpleNLGDotNetCore/features/InternalFeature.cs:64-662 | the name in each declaration's trailing comment; every one is non-empty and starts with the lower-case form of the identifier's first letter |
| InternalFeatures.CodeInjective | SharpSimpleNLGDotNetCore/features/InternalFeature.cs:64-662 | two members declared with the same value are the same member |
| InternalFeatures.FromCodeRoundTrip | SharpSimpleNLGDotNetCore/features/InternalFeature.cs:64-662 | casting a member's own value back to the enum gives that member |
| InternalFeatures.DeclaredCodes | SharpSimpleNLGDotNetCore/features/InternalFeature.cs:64-662 | an int denotes a member if and only if it is in 1000..1020 and is neither 1003 nor 1009 |
| InternalFeatures.AllFeaturesOnce | SharpSimpleNLGDotNetCore/features/InternalFeature.cs:29-662 | each member appears in the enumeration at exactly one position |
| InternalFeatureExtensions.Name | SharpSimpleNLGDotNetCore/features/InternalFeature.cs:672-709 | every case arm of the switch returns a non-empty name |
| InternalFeatureExtensions.ToString | SharpSimpleNLGDotNetCore/features/InternalFeature.cs:668-713 | the switch returns "" exactly when the value is no declared member's, and otherwise returns that member's name |
| InternalFeatureExtensions.Lookup | SharpSimpleNLGDotNetCore/features/InternalFeature.cs:668-713 | a found member has the looked-up name, and None means no member in the enumeration has that name |
| InternalFeatureExtensions.NameInjective | SharpSimpleNLGDotNetCore/features/InternalFeature.cs:672-709 | distinct members get distinct names |
| InternalFeatureExtensions.LookupRoundTrip | SharpSimpleNLGDotNetCore/features/InternalFeature.cs:668-713 | looking up a member's name gives that member |
| InternalFeatureExtensions.LookupFinds | SharpSimpleNLGDotNetCore/features/InternalFeature.cs:668-713 | lookup of s gives f if and only if s is f's name |
| InternalFeatureExtensions.LookupFails | SharpSimpleNLGDotNetCore/features/InternalFeature.cs:668-713 | lookup fails if and only if no member has that name |
| InternalFeatureExtensions.LookupEmpty | SharpSimpleNLGDotNetCore/features/InternalFeature.cs:710-711 | the default arm's result "" names no member |
| InternalFeatureExtensions.ToStringUndeclared | SharpSimpleNLGDotNetCore/features/InternalFeature.cs:670-713 | the switch returns "" if and only if the value is outside 1000..1020 or is 1003 or 1009 |
| InternalFeatureExtensions.ToStringIdentifies | SharpSimpleNLGDotNetCore/features/InternalFeature.cs:670-713 | a non-empty result of the switch comes from a declared member, and the reverse lookup recovers that member |
| NameConventions.NameIsLoweredIdentifier | SharpSimpleNLGDotNetCore/features/InternalFeature.cs:64-709 | each member's name is its declared identifier lower-cased (BASE_WORD gives base_word) |
| NameConventions.NameIsSnake | SharpSimpleNLGDotNetCore/features/InternalFeature.cs:673-709 | each name is non-empty and uses only lower-case ASCII letters and '_' |
| NameConventions.NameMatchesComment | SharpSimpleNLGDotNetCore/features/InternalFeature.cs:64-709 | each name in the switch equals the name in the trailing comment of the member's declaration |
| FeatureMetadata.DocumentedMetadata | SharpSimpleNLGDotNetCore/features/InternalFeature.cs:31-662 | the tables as written: only NON_MORPH has no table; every documented default is a value of its documented type except the one for COMPLEMENTS; exactly CLAUSE_STATUS and COMPLEMENTS are documented with an enum-constant default |
| FeatureMetadata.ComplementsDefaultMisfits | SharpSimpleNLGDotNetCore/features/InternalFeature.cs:137-170 | COMPLEMENTS is documented as a list whose default is ClauseStatus.MATRIX, which is not a list value |
| FeatureMetadata.Meta | SharpSimpleNLGDotNetCore/features/InternalFeature.cs:31-662 | the corrected tables: only NON_MORPH has no table, and every default is a value of its type |
| FeatureMetadata.MetaDiffersOnlyOnComplements | SharpSimpleNLGDotNetCore/features/InternalFeature.cs:137-170 | the corrected tables equal the documented ones on every member except COMPLEMENTS, and the two agree on every value type |
| FeatureMetadata.FlagsDefaultFalse | SharpSimpleNLGDotNetCore/features/InternalFeature.cs:42-558 | a feature is typed Boolean, and then defaults to FALSE, if and only if it is ACRONYM, IGNORE_MODAL, INTERROGATIVE, RAISED or REALISE_AUXILIARY |
| FeatureMetadata.ListsDefaultNull | SharpSimpleNLGDotNetCore/features/InternalFeature.cs:137-625 | a feature is typed as an element list if and only if it is COMPLEMENTS, COMPONENTS, COORDINATES, POSTMODIFIERS, PREMODIFIERS or SUBJECTS; as documented, each list defaults to null except COMPLEMENTS |
| FeatureMetadata.SpecialDefaults | SharpSimpleNLGDotNetCore/features/InternalFeature.cs:103-353 | in the corrected tables, only CLAUSE_STATUS defaults to an enum constant, and that constant is MATRIX; only HEAD has a default the phrase factory supplies |

## Left out

- The attribute store, the tree elements and the processors are not part of this model. They read and write these keys, but their code is not in the modelled file.
- NON_MORPH has no documentation table, so the model gives it no metadata (None).
- The documented default of HEAD is "set by the phrase factory". The factory is not part of this model, so the default is the tag `FactorySupplied` rather than a value.
- The "Created by", "Used by" and "Applies to" rows of the tables are not modelled. They are informal prose about other components, and nothing in this file enforces them.
- The camel-case "Feature name" rows of the tables (`isAcronym`, `phraseHead`, ...) are not modelled. The switch does not use them.
- `List<NLGElements>` (COMPONENTS, COORDINATES) and `List<NLGElement>` are modelled as one list shape. The plural is a spelling variant in the comments.
- In C#, the instance-call form `feature.ToString()` binds to the built-in `Enum.ToString`, not to the extension method. The model covers the static `InternalFeatureExtensions.ToString(feature)` as written.
- The C# enum is backed by a 32-bit int. `ToString` and `FromCode` take an unbounded `int`. Every declared value fits in 32 bits, and every other value maps to "" either way, so the width does not matter.

## Findings

| source | as written | input that shows it | evidently intended | confidence | as-written member | corrected member |
|---|---|---|---|---|---|---|
| SharpSimpleNLGDotNetCore/features/InternalFeature.cs:165-166 | the default of the list-typed COMPLEMENTS feature is documented as `ClauseStatus.MATRIX` | COMPLEMENTS: the expected type `List<NLGElement>` cannot hold a ClauseStatus constant | `null`, like every other list feature | not executed; documentation text only, likely copied from the CLAUSE_STATUS table above it | FeatureMetadata.ComplementsDefaultMisfits | FeatureMetadata.Meta |
