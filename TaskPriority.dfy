/** Task.Priority: the five task priorities, their persisted codes, the two decoders
    (by ordinal and by persisted code) and the strings derived from the constant name.
    The persisted code is NOT the ordinal: LOWEST comes first but is stored as "3". */
module TaskPriority {
  import opened Search
  import opened Text

  datatype Priority = LOWEST | LOW | NORMAL | HIGH | HIGHEST

  /** Default priority for new tasks. */
  const DEFAULT_PRIORITY: Priority := NORMAL

  /** The enum's `values()`, in declaration order. */
  function Values(): (vs: seq<Priority>)
    ensures |vs| == 5
  {
    [LOWEST, LOW, NORMAL, HIGH, HIGHEST]
  }

  /** Position of `p` in declaration order. */
  function Ordinal(p: Priority): (r: nat)
    ensures r < |Values()| && Values()[r] == p
  {
    match p
    case LOWEST => 0
    case LOW => 1
    case NORMAL => 2
    case HIGH => 3
    case HIGHEST => 4
  }

  /** The code the priority is stored under. */
  function PersistentValue(p: Priority): (code: string)
    ensures |code| == 1 && '0' <= code[0] <= '4'
  {
    match p
    case LOWEST => "3"
    case LOW => "0"
    case NORMAL => "1"
    case HIGH => "2"
    case HIGHEST => "4"
  }

  /** The constant's name, as `toString()` gives it. */
  function Name(p: Priority): (name: string)
    ensures IsConstantName(name)
  {
    match p
    case LOWEST => "LOWEST"
    case LOW => "LOW"
    case NORMAL => "NORMAL"
    case HIGH => "HIGH"
    case HIGHEST => "HIGHEST"
  }

  /** The constant's name in lower case, as a literal table. */
  function LowerString(p: Priority): (lower: string)
    ensures lower == AsciiLower(Name(p))
  {
    match p
    case LOWEST => "lowest"
    case LOW => "low"
    case NORMAL => "normal"
    case HIGH => "high"
    case HIGHEST => "highest"
  }

  /** Key of the priority's translated label: the lower-cased name under "priority.". */
  function I18nKey(p: Priority): (r: string)
    ensures r == "priority." + AsciiLower(Name(p))
  {
    "priority." + LowerString(p)
  }

  /** Path of the priority's icon: the lower-cased name between "/icons/task_" and ".gif". */
  function IconPath(p: Priority): (r: string)
    ensures r == "/icons/task_" + AsciiLower(Name(p)) + ".gif"
  {
    "/icons/task_" + LowerString(p) + ".gif"
  }

  /** The value with ordinal `value`, or DEFAULT_PRIORITY when there is none. */
  function GetPriority(value: int): (r: Priority)
    ensures 0 <= value < |Values()| ==> r == Values()[value] && Ordinal(r) == value
    ensures !(0 <= value < |Values()|) ==> r == DEFAULT_PRIORITY
  {
    match FirstIndex(Values(), p => Ordinal(p) == value)
    case Some(k) => Values()[k]
    case None => DEFAULT_PRIORITY
  }

  /** The value stored under `code`, or NORMAL when no value is. */
  function FromPersistentValue(code: string): (r: Priority)
    ensures (exists p :: PersistentValue(p) == code) ==> PersistentValue(r) == code
    ensures (forall p :: PersistentValue(p) != code) ==> r == NORMAL
  {
    match FirstIndex(Values(), p => PersistentValue(p) == code)
    case Some(k) => Values()[k]
    case None => NORMAL
  }

  /** The five codes are pairwise distinct. */
  lemma PersistentValueInjective(p: Priority, q: Priority)
    ensures PersistentValue(p) == PersistentValue(q) ==> p == q
  {
  }

  /** Decoding a stored code gives back the priority that was stored. */
  lemma RoundTrip(p: Priority)
    ensures FromPersistentValue(PersistentValue(p)) == p
  {
    var r := FromPersistentValue(PersistentValue(p));
    PersistentValueInjective(r, p);
  }

  /** Decoding is total: a code outside "0".."4" gives NORMAL, the default priority. */
  lemma DecodeFallback(code: string)
    requires code !in {"0", "1", "2", "3", "4"}
    ensures FromPersistentValue(code) == NORMAL == DEFAULT_PRIORITY
  {
  }

  /** The codes are exactly "0".."4", each decoding to the value it is stored for. */
  lemma DecodeTable(code: string)
    ensures FromPersistentValue(code) ==
      if code == "3" then LOWEST
      else if code == "0" then LOW
      else if code == "2" then HIGH
      else if code == "4" then HIGHEST
      else NORMAL
  {
  }

  /** Ordinal decoding inverts Ordinal, and every value in range has its ordinal. */
  lemma OrdinalRoundTrip(p: Priority)
    ensures GetPriority(Ordinal(p)) == p
  {
  }

  /** The two decoders disagree: the ordinal 3 is HIGH, but the code "3" is LOWEST. */
  lemma DecodersDiffer()
    ensures GetPriority(3) == HIGH
    ensures FromPersistentValue("3") == LOWEST
    ensures PersistentValue(LOWEST) != DecimalString(Ordinal(LOWEST))
  {
    RoundTrip(LOWEST);
  }

  /** Distinct priorities have distinct translation keys and icons: the lower-cased
      name can be cut back out of either string. */
  lemma DerivedStringsInjective(p: Priority, q: Priority)
    ensures I18nKey(p) == I18nKey(q) ==> p == q
    ensures IconPath(p) == IconPath(q) ==> p == q
  {
    LowerStringInjective(p, q);
    AffixCancel("priority.", LowerString(p), LowerString(q), "");
    AffixCancel("/icons/task_", LowerString(p), LowerString(q), ".gif");
  }

  lemma LowerStringInjective(p: Priority, q: Priority)
    ensures LowerString(p) == LowerString(q) ==> p == q
  {
  }
}
