/** The converter between a nullable `Boolean` attribute and a nullable
    `Short` column (a TINYINT in the database). */
module BooleanToShort {
  import opened Wrappers

  /** Java's `short`: a 16-bit two's-complement integer. */
  newtype int16 = x: int | -0x8000 <= x < 0x8000

  const MinShort: int := -0x8000
  const MaxShort: int := 0x7FFF

  /** convertToDatabaseColumn: null stays null, TRUE is stored as 1 and
      every other Boolean as 0. */
  function ToColumn(b: Option<bool>): (r: Option<int16>)
    ensures r.None? <==> b.None?
    ensures r.Some? ==> r.value == 0 || r.value == 1
    ensures r == Some(1) <==> b == Some(true)
    ensures r == Some(0) <==> b == Some(false)
  {
    if b.None? then None
    else if b.value == true then Some(1)
    else Some(0)
  }

  /** convertToEntityAttribute: null stays null, a value greater than 0
      reads as TRUE and every other value, negative ones included, as
      FALSE. */
  function ToEntity(s: Option<int16>): (r: Option<bool>)
    ensures r.None? <==> s.None?
    ensures s.Some? ==> (r == Some(true) <==> s.value > 0)
    ensures s.Some? ==> (r == Some(false) <==> s.value <= 0)
  {
    if s.None? then None
    else if s.value > 0 then Some(true)
    else Some(false)
  }

  /** Every attribute value, null included, survives a write and a read. */
  lemma EntityRoundTrip(b: Option<bool>)
    ensures ToEntity(ToColumn(b)) == b
  {
  }

  /** A column value survives a read and a write exactly when it is null,
      0 or 1; every other short is normalised. */
  lemma ColumnRoundTrip(s: Option<int16>)
    ensures ToColumn(ToEntity(s)) == s <==> s in {None, Some(0), Some(1)}
    ensures s.Some? && s.value > 0 ==> ToColumn(ToEntity(s)) == Some(1)
    ensures s.Some? && s.value <= 0 ==> ToColumn(ToEntity(s)) == Some(0)
  {
  }

  /** Writing distinct attribute values stores distinct column values. */
  lemma ToColumnInjective(a: Option<bool>, b: Option<bool>)
    ensures ToColumn(a) == ToColumn(b) ==> a == b
  {
  }

  /** All shorts that read back as `v`. */
  ghost function ColumnsReadAs(v: bool): set<int16>
  {
    set s: int16 | ToEntity(Some(s)) == Some(v)
  }

  /** All shorts that a read followed by a write gives back unchanged. */
  ghost function FixedColumns(): set<int16>
  {
    set s: int16 | ToColumn(ToEntity(Some(s))) == Some(s)
  }

  /** The shorts whose value lies in the half-open range [lo, hi). */
  ghost function Shorts(lo: int, hi: int): set<int16>
    requires MinShort <= lo && hi <= MaxShort + 1
    decreases hi - lo
  {
    if lo >= hi then {} else {lo as int16} + Shorts(lo + 1, hi)
  }

  lemma {:induction false} ShortsMembers(lo: int, hi: int, s: int16)
    requires MinShort <= lo && hi <= MaxShort + 1
    ensures s in Shorts(lo, hi) <==> lo <= s as int < hi
    decreases hi - lo
  {
    if lo < hi {
      ShortsMembers(lo + 1, hi, s);
    }
  }

  lemma {:induction false} ShortsCard(lo: int, hi: int)
    requires MinShort <= lo <= hi <= MaxShort + 1
    ensures |Shorts(lo, hi)| == hi - lo
    decreases hi - lo
  {
    if lo < hi {
      ShortsMembers(lo + 1, hi, lo as int16);
      ShortsCard(lo + 1, hi);
    }
  }

  /** The read direction splits the 65536 shorts unevenly: the 32767
      positive ones read as TRUE and the 32769 others (zero and all
      negative values) read as FALSE. */
  lemma ReadPartition()
    ensures ColumnsReadAs(true) == Shorts(1, MaxShort + 1)
    ensures ColumnsReadAs(false) == Shorts(MinShort, 1)
    ensures |ColumnsReadAs(true)| == 32767
    ensures |ColumnsReadAs(false)| == 32769
  {
    forall s: int16 ensures s in ColumnsReadAs(true) <==> s in Shorts(1, MaxShort + 1) {
      ShortsMembers(1, MaxShort + 1, s);
    }
    forall s: int16 ensures s in ColumnsReadAs(false) <==> s in Shorts(MinShort, 1) {
      ShortsMembers(MinShort, 1, s);
    }
    ShortsCard(1, MaxShort + 1);
    ShortsCard(MinShort, 1);
  }

  /** Only 0 and 1 of all 65536 shorts survive a read and a write. */
  lemma FixedColumnsAreZeroAndOne()
    ensures FixedColumns() == {0, 1}
  {
  }
}
