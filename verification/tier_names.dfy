/**
 * `getTierName`, the expression function the survey registers for naming
 * the rows of a rate-tier table: the tier name at a row index under one of
 * two rate structures.
 */
module TierNames {
  import opened Options
  import opened Numbers
  import opened Values

  const Structure1: seq<string> := ["Employee Only", "Employee +1", "Employee +2 or more", "Employee +3 or more"]
  const Structure2: seq<string> := ["Employee Only", "Employee +Spouse/DP", "Employee +Children", "Employee +Family"]

  /** The name shown for a row without a tier. */
  const Fallback: string := "Coverage Tier"

  /** The tier list for the structure parameter: `structure2` only when
      asked for by name, `structure1` otherwise. */
  function Tiers(structure: Option<Value>): (tiers: seq<string>)
    ensures |tiers| == 4
  {
    if structure == Some(Str("structure2")) then Structure2 else Structure1
  }

  /** The row index as a JavaScript number: a number as it is, anything else
      through `parseInt(String(x ?? 0), 10)`; `None` is `NaN`. The infinities
      never name a tier and are represented by an index out of range. */
  datatype Index = NotANumber | Finite(x: real) | Beyond

  function RowIndex(row: Option<Value>): Index {
    match row
    case None => Finite(0.0)
    case Some(v) =>
      match v
      case Num(d) => Finite(ToReal(d))
      case NonFinite(k) => if k == NaN then NotANumber else Beyond
      case Null => Finite(0.0)
      case _ =>
        var p := ParseInt(ToText(v), false);
        if p.None? then NotANumber else Finite(p.value as real)
  }

  /** `getTierName(rowIndex, rateStructureType)`: `None` stands for the
      `undefined` a fractional index in range reads from the list. */
  function TierName(row: Option<Value>, structure: Option<Value>): (r: Option<string>)
    ensures r.Some? ==> r.value == Fallback || r.value in Tiers(structure)
  {
    var tiers := Tiers(structure);
    match RowIndex(row)
    case NotANumber => Some(Fallback)
    case Beyond => Some(Fallback)
    case Finite(x) =>
      if x < 0.0 || x >= |tiers| as real then Some(Fallback)
      else if x == x.Floor as real then Some(tiers[x.Floor])
      else None
  }

  /** A whole-number index names the tier at that position, given as a
      number or as its numeral. */
  lemma TierAt(n: nat, structure: Option<Value>)
    requires n < 4
    ensures TierName(Some(NatValue(n)), structure) == Some(Tiers(structure)[n])
  {
    WholeIndex(n, structure);
    assert Pow10(0) == 1;
  }

  lemma TierAtNumeral(n: nat, structure: Option<Value>)
    requires n < 4
    ensures TierName(Some(Str(NatToString(n))), structure) == Some(Tiers(structure)[n])
  {
    WholeIndex(n, structure);
    ParseIntNumeral(n, false);
  }

  lemma WholeIndex(n: nat, structure: Option<Value>)
    requires n < 4
    ensures forall row :: RowIndex(row) == Finite(n as real) ==> TierName(row, structure) == Some(Tiers(structure)[n])
  {
    assert (n as real).Floor == n;
  }

  /** A missing or `null` index reads as row 0. */
  lemma MissingIndexFirst(structure: Option<Value>)
    ensures TierName(None, structure) == Some(Tiers(structure)[0])
    ensures TierName(Some(Null), structure) == Some(Tiers(structure)[0])
  {
    assert (0.0).Floor == 0;
  }

  /** The fallback name appears exactly when the index is not a number or
      lies outside 0 to 3; otherwise a tier's own name, or `undefined` for
      a fraction. */
  lemma FallbackIff(row: Option<Value>, structure: Option<Value>)
    ensures TierName(row, structure) == Some(Fallback) <==>
      (RowIndex(row).NotANumber? || RowIndex(row).Beyond?
       || (RowIndex(row).Finite? && (RowIndex(row).x < 0.0 || RowIndex(row).x >= 4.0)))
    ensures TierName(row, structure).None? <==>
      (RowIndex(row).Finite? && 0.0 <= RowIndex(row).x < 4.0 && RowIndex(row).x != RowIndex(row).x.Floor as real)
  {
    var tiers := Tiers(structure);
    assert Fallback !in tiers;
  }

  /** Text that `parseInt` cannot read, such as `"abc"`, gives the fallback
      name, as does `NaN`; `"2nd"` reads as row 2. */
  lemma UnreadableIndex(s: string, structure: Option<Value>)
    requires ParseInt(s, false).None?
    ensures TierName(Some(Str(s)), structure) == Some(Fallback)
    ensures TierName(Some(NonFinite(NaN)), structure) == Some(Fallback)
  {
    UnreadableText(s);
    NotANumberFallback(Some(Str(s)), structure);
    NotANumberFallback(Some(NonFinite(NaN)), structure);
  }

  lemma UnreadableText(s: string)
    requires ParseInt(s, false).None?
    ensures RowIndex(Some(Str(s))) == NotANumber
  {
    assert ToText(Str(s)) == s;
  }

  lemma NotANumberFallback(row: Option<Value>, structure: Option<Value>)
    requires RowIndex(row) == NotANumber
    ensures TierName(row, structure) == Some(Fallback)
  {
  }

  /** Every structure other than `structure2`, including a non-string or
      an unknown name, names the tiers of `structure1`. */
  lemma DefaultStructure(row: Option<Value>, structure: Option<Value>)
    requires structure != Some(Str("structure2"))
    ensures TierName(row, structure) == TierName(row, Some(Str("structure1")))
  {
  }
}
