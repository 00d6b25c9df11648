/** Task.Role: the eleven task roles, their persisted codes, the two decoders (by ordinal
    and by persisted code) and the strings derived from the constant name. Unlike a
    priority's, a role's persisted code is the decimal spelling of its ordinal. */
module TaskRole {
  import opened Search
  import opened Text

  datatype Role =
    | UNDEFINED | PROJECT_MANAGER | DEVELOPER | DOC_WRITER | TESTER
    | GRAPHIC_DESIGNER | DOC_TRANSLATOR | PACKAGER | ANALYST
    | WEB_DESIGNER | NO_SPECIFIC_ROLE

  /** Default role (for new tasks). */
  const DEFAULT_ROLE: Role := UNDEFINED

  /** The enum's `values()`, in declaration order. */
  function Values(): (vs: seq<Role>)
    ensures |vs| == 11
  {
    [UNDEFINED, PROJECT_MANAGER, DEVELOPER, DOC_WRITER, TESTER,
     GRAPHIC_DESIGNER, DOC_TRANSLATOR, PACKAGER, ANALYST,
     WEB_DESIGNER, NO_SPECIFIC_ROLE]
  }

  /** Position of `r` in declaration order. */
  function Ordinal(r: Role): (k: nat)
    ensures k < |Values()| && Values()[k] == r
  {
    match r
    case UNDEFINED => 0
    case PROJECT_MANAGER => 1
    case DEVELOPER => 2
    case DOC_WRITER => 3
    case TESTER => 4
    case GRAPHIC_DESIGNER => 5
    case DOC_TRANSLATOR => 6
    case PACKAGER => 7
    case ANALYST => 8
    case WEB_DESIGNER => 9
    case NO_SPECIFIC_ROLE => 10
  }

  /** The code the role is stored under. */
  function PersistentValue(r: Role): (code: string)
    ensures code == DecimalString(Ordinal(r))
  {
    match r
    case UNDEFINED => "0"
    case PROJECT_MANAGER => "1"
    case DEVELOPER => "2"
    case DOC_WRITER => "3"
    case TESTER => "4"
    case GRAPHIC_DESIGNER => "5"
    case DOC_TRANSLATOR => "6"
    case PACKAGER => "7"
    case ANALYST => "8"
    case WEB_DESIGNER => "9"
    case NO_SPECIFIC_ROLE => "10"
  }

  /** The constant's name, as `toString()` gives it. */
  function Name(r: Role): (name: string)
    ensures IsConstantName(name)
  {
    match r
    case UNDEFINED => "UNDEFINED"
    case PROJECT_MANAGER => "PROJECT_MANAGER"
    case DEVELOPER => "DEVELOPER"
    case DOC_WRITER => "DOC_WRITER"
    case TESTER => "TESTER"
    case GRAPHIC_DESIGNER => "GRAPHIC_DESIGNER"
    case DOC_TRANSLATOR => "DOC_TRANSLATOR"
    case PACKAGER => "PACKAGER"
    case ANALYST => "ANALYST"
    case WEB_DESIGNER => "WEB_DESIGNER"
    case NO_SPECIFIC_ROLE => "NO_SPECIFIC_ROLE"
  }

  /** Lower-casing each constant name gives the matching entry of the lower-string
      table. LowerString's contract rests on these facts; the eleven names are split
      over three lemmas to keep each proof small. */
  lemma NamesLoweredUndefinedToDocWriter()
    ensures AsciiLower("UNDEFINED") == "undefined"
    ensures AsciiLower("PROJECT_MANAGER") == "project_manager"
    ensures AsciiLower("DEVELOPER") == "developer"
    ensures AsciiLower("DOC_WRITER") == "doc_writer"
  {
  }

  lemma NamesLoweredTesterToPackager()
    ensures AsciiLower("TESTER") == "tester"
    ensures AsciiLower("GRAPHIC_DESIGNER") == "graphic_designer"
    ensures AsciiLower("DOC_TRANSLATOR") == "doc_translator"
    ensures AsciiLower("PACKAGER") == "packager"
  {
  }

  lemma NamesLoweredAnalystToNoSpecificRole()
    ensures AsciiLower("ANALYST") == "analyst"
    ensures AsciiLower("WEB_DESIGNER") == "web_designer"
    ensures AsciiLower("NO_SPECIFIC_ROLE") == "no_specific_role"
  {
  }

  /** The constant's name in lower case, as a literal table. */
  function LowerString(r: Role): (lower: string)
    ensures lower == AsciiLower(Name(r))
  {
    NamesLoweredUndefinedToDocWriter();
    NamesLoweredTesterToPackager();
    NamesLoweredAnalystToNoSpecificRole();
    match r
    case UNDEFINED => "undefined"
    case PROJECT_MANAGER => "project_manager"
    case DEVELOPER => "developer"
    case DOC_WRITER => "doc_writer"
    case TESTER => "tester"
    case GRAPHIC_DESIGNER => "graphic_designer"
    case DOC_TRANSLATOR => "doc_translator"
    case PACKAGER => "packager"
    case ANALYST => "analyst"
    case WEB_DESIGNER => "web_designer"
    case NO_SPECIFIC_ROLE => "no_specific_role"
  }

  /** Key of the role's translated label: the lower-cased name under "role."
      (GanttProject spells the accessor `getI18rKey`). */
  function I18rKey(r: Role): (s: string)
    ensures s == "role." + AsciiLower(Name(r))
  {
    "role." + LowerString(r)
  }

  /** The value with ordinal `value`, or DEFAULT_ROLE when there is none. */
  function GetRole(value: int): (r: Role)
    ensures 0 <= value < |Values()| ==> r == Values()[value] && Ordinal(r) == value
    ensures !(0 <= value < |Values()|) ==> r == DEFAULT_ROLE
  {
    OrdinalsInOrder();
    match FirstIndex(Values(), r => Ordinal(r) == value)
    case Some(k) => Values()[k]
    case None => DEFAULT_ROLE
  }

  /** The value stored under `code`, or UNDEFINED when no value is. */
  function FromPersistentValue(code: string): (r: Role)
    ensures (exists q :: PersistentValue(q) == code) ==> PersistentValue(r) == code
    ensures (forall q :: PersistentValue(q) != code) ==> r == UNDEFINED
  {
    match FirstIndex(Values(), r => PersistentValue(r) == code)
    case Some(k) => Values()[k]
    case None => NoRoleHasCode(code); UNDEFINED
  }

  /** A code no listed role is stored under is the code of no role. */
  lemma NoRoleHasCode(code: string)
    requires forall j :: 0 <= j < |Values()| ==> PersistentValue(Values()[j]) != code
    ensures forall q :: PersistentValue(q) != code
  {
    forall q ensures PersistentValue(q) != code {
      assert Values()[Ordinal(q)] == q;
    }
  }

  /** Values() lists each role at the position of its ordinal. */
  lemma OrdinalsInOrder()
    ensures forall k :: 0 <= k < |Values()| ==> Ordinal(Values()[k]) == k
  {
  }

  /** Every role is stored under the decimal spelling of its ordinal. */
  lemma CodeIsDecimalOrdinal(r: Role)
    ensures PersistentValue(r) == DecimalString(Ordinal(r))
  {
  }

  /** The eleven codes are pairwise distinct. */
  lemma PersistentValueInjective(r: Role, s: Role)
    ensures PersistentValue(r) == PersistentValue(s) ==> r == s
  {
    CodeIsDecimalOrdinal(r);
    CodeIsDecimalOrdinal(s);
    DecimalStringInjective(Ordinal(r), Ordinal(s));
  }

  /** Decoding a stored code gives back the role that was stored. */
  lemma RoundTrip(r: Role)
    ensures FromPersistentValue(PersistentValue(r)) == r
  {
    var d := FromPersistentValue(PersistentValue(r));
    PersistentValueInjective(d, r);
  }

  /** Decoding is total: a code outside "0".."10" gives UNDEFINED, the default role. */
  lemma DecodeFallback(code: string)
    requires code !in {"0", "1", "2", "3", "4", "5", "6", "7", "8", "9", "10"}
    ensures FromPersistentValue(code) == UNDEFINED == DEFAULT_ROLE
  {
  }

  /** Because codes and ordinals agree, the code decoder and the ordinal decoder agree
      on every number: the decimal spelling of a number decodes to the role with that
      ordinal, and whatever GetRole returns survives a store-and-load. */
  lemma DecodersAgree(i: int)
    ensures 0 <= i ==> FromPersistentValue(DecimalString(i)) == GetRole(i)
    ensures FromPersistentValue(PersistentValue(GetRole(i))) == GetRole(i)
  {
    var r := GetRole(i);
    RoundTrip(r);
    if 0 <= i < |Values()| {
      CodeIsDecimalOrdinal(r);
    } else if i >= |Values()| {
      forall q ensures PersistentValue(q) != DecimalString(i) {
        CodeIsDecimalOrdinal(q);
        DecimalStringInjective(Ordinal(q), i);
      }
    }
  }

  /** Ordinal decoding inverts Ordinal. */
  lemma OrdinalRoundTrip(r: Role)
    ensures GetRole(Ordinal(r)) == r
  {
  }

  /** Distinct roles have distinct translation keys. */
  lemma I18rKeyInjective(r: Role, s: Role)
    ensures I18rKey(r) == I18rKey(s) ==> r == s
  {
    LowerStringInjective(r, s);
    AffixCancel("role.", LowerString(r), LowerString(s), "");
  }

  lemma LowerStringInjective(r: Role, s: Role)
    ensures LowerString(r) == LowerString(s) ==> r == s
  {
  }
}
