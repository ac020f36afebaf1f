/**
 * The static element reference table `elements_dict` of Chatnot.py and its
 * invariants. The dictionary literal is kept as its sequence of key/record pairs
 * (split into rows of ten only so that the verifier can index it), and the table
 * is what Python builds from such a literal.
 */
module ElementTable {
  import opened Wrappers

  /** One record of the table: `{"name": ..., "atomic_number": ..., "symbol": ...}`. */
  datatype Element = Element(name: string, atomicNumber: int, symbol: string)

  /** Entries 1-10 of the literal (H to NE). */
  const Row0: seq<(string, Element)> := [
    ("H", Element("Hydrogen", 1, "H")),
    ("HE", Element("Helium", 2, "HE")),
    ("LI", Element("Lithium", 3, "LI")),
    ("BE", Element("Beryllium", 4, "BE")),
    ("B", Element("Boron", 5, "B")),
    ("C", Element("Carbon", 6, "C")),
    ("N", Element("Nitrogen", 7, "N")),
    ("O", Element("Oxygen", 8, "O")),
    ("F", Element("Fluorine", 9, "F")),
    ("NE", Element("Neon", 10, "NE"))
  ]

  /** Entries 11-20 of the literal (NA to CA). */
  const Row1: seq<(string, Element)> := [
    ("NA", Element("Sodium", 11, "NA")),
    ("MG", Element("Magnesium", 12, "MG")),
    ("AL", Element("Aluminum", 13, "AL")),
    ("SI", Element("Silicon", 14, "SI")),
    ("P", Element("Phosphorus", 15, "P")),
    ("S", Element("Sulfur", 16, "S")),
    ("CL", Element("Chlorine", 17, "CL")),
    ("AR", Element("Argon", 18, "AR")),
    ("K", Element("Potassium", 19, "K")),
    ("CA", Element("Calcium", 20, "CA"))
  ]

  /** Entries 21-30 of the literal (SC to ZN). */
  const Row2: seq<(string, Element)> := [
    ("SC", Element("Scandium", 21, "SC")),
    ("TI", Element("Titanium", 22, "TI")),
    ("V", Element("Vanadium", 23, "V")),
    ("CR", Element("Chromium", 24, "CR")),
    ("MN", Element("Manganese", 25, "MN")),
    ("FE", Element("Iron", 26, "FE")),
    ("CO", Element("Cobalt", 27, "CO")),
    ("NI", Element("Nickel", 28, "NI")),
    ("CU", Element("Copper", 29, "CU")),
    ("ZN", Element("Zinc", 30, "ZN"))
  ]

  /** Entries 31-40 of the literal (GA to ZR). */
  const Row3: seq<(string, Element)> := [
    ("GA", Element("Gallium", 31, "GA")),
    ("GE", Element("Germanium", 32, "GE")),
    ("AS", Element("Arsenic", 33, "AS")),
    ("SE", Element("Selenium", 34, "SE")),
    ("BR", Element("Bromine", 35, "BR")),
    ("KR", Element("Krypton", 36, "KR")),
    ("RB", Element("Rubidium", 37, "RB")),
    ("SR", Element("Strontium", 38, "SR")),
    ("Y", Element("Yttrium", 39, "Y")),
    ("ZR", Element("Zirconium", 40, "ZR"))
  ]

  /** Entries 41-50 of the literal (NB to SN). */
  const Row4: seq<(string, Element)> := [
    ("NB", Element("Niobium", 41, "NB")),
    ("MO", Element("Molybdenum", 42, "MO")),
    ("TC", Element("Technetium", 43, "TC")),
    ("RU", Element("Ruthenium", 44, "RU")),
    ("RH", Element("Rhodium", 45, "RH")),
    ("PD", Element("Palladium", 46, "PD")),
    ("AG", Element("Silver", 47, "AG")),
    ("CD", Element("Cadmium", 48, "CD")),
    ("IN", Element("Indium", 49, "IN")),
    ("SN", Element("Tin", 50, "SN"))
  ]

  /** Entries 51-60 of the literal (SB to ND). */
  const Row5: seq<(string, Element)> := [
    ("SB", Element("Antimony", 51, "SB")),
    ("TE", Element("Tellurium", 52, "TE")),
    ("I", Element("Iodine", 53, "I")),
    ("XE", Element("Xenon", 54, "XE")),
    ("CS", Element("Cesium", 55, "CS")),
    ("BA", Element("Barium", 56, "BA")),
    ("LA", Element("Lanthanum", 57, "LA")),
    ("CE", Element("Cerium", 58, "CE")),
    ("PR", Element("Praseodymium", 59, "PR")),
    ("ND", Element("Neodymium", 60, "ND"))
  ]

  /** Entries 61-70 of the literal (PM to YB). */
  const Row6: seq<(string, Element)> := [
    ("PM", Element("Promethium", 61, "PM")),
    ("SM", Element("Samarium", 62, "SM")),
    ("EU", Element("Europium", 63, "EU")),
    ("GD", Element("Gadolinium", 64, "GD")),
    ("TB", Element("Terbium", 65, "TB")),
    ("DY", Element("Dysprosium", 66, "DY")),
    ("HO", Element("Holmium", 67, "HO")),
    ("ER", Element("Erbium", 68, "ER")),
    ("TM", Element("Thulium", 69, "TM")),
    ("YB", Element("Ytterbium", 70, "YB"))
  ]

  /** Entries 71-80 of the literal (LU to OG). */
  const Row7: seq<(string, Element)> := [
    ("LU", Element("Lutetium", 71, "LU")),
    ("HF", Element("Hafnium", 72, "HF")),
    ("TA", Element("Tantalum", 73, "TA")),
    ("W", Element("Tungsten", 74, "W")),
    ("RE", Element("Rhenium", 75, "RE")),
    ("OS", Element("Osmium", 76, "OS")),
    ("IR", Element("Iridium", 77, "IR")),
    ("PT", Element("Platinum", 78, "PT")),
    ("AU", Element("Gold", 79, "AU")),
    ("OG", Element("Oganesson", 118, "OG"))
  ]

  /** The `elements_dict` literal as written: its key/record pairs in source order. */
  const Entries: seq<(string, Element)> := Row0 + Row1 + Row2 + Row3 + Row4 + Row5 + Row6 + Row7

  /** Python dict-literal semantics: pairs are inserted in order, and a repeated
      key keeps the value of its last pair. */
  function DictOf<K(==), V>(pairs: seq<(K, V)>): (m: map<K, V>)
    ensures forall i :: 0 <= i < |pairs| ==> pairs[i].0 in m
    ensures forall k :: k in m ==> exists i :: 0 <= i < |pairs| && pairs[i].0 == k && m[k] == pairs[i].1
  {
    if pairs == [] then map[]
    else
      var last := pairs[|pairs| - 1];
      var m := DictOf(pairs[..|pairs| - 1])[last.0 := last.1];
      assert forall i :: 0 <= i < |pairs| - 1 ==> pairs[..|pairs| - 1][i] == pairs[i];
      m
  }

  /** `elements_dict` (Chatnot.py:14-95). */
  const Table: map<string, Element> := DictOf(Entries)

  /** A chemical symbol as the table stores it: one or two upper-case ASCII letters. */
  predicate IsSymbolShape(k: string) {
    1 <= |k| <= 2 && forall j :: 0 <= j < |k| ==> 'A' <= k[j] <= 'Z'
  }

  /** The atomic numbers the table lists: 1 to 79, and 118. */
  predicate IsListedNumber(n: int) {
    1 <= n <= 79 || n == 118
  }

  /** Atomic number of the entry at position `i` of the literal. */
  function AtomicNumberAt(i: int): int {
    if i < 79 then i + 1 else 118
  }

  predicate RowOk(e: (string, Element), n: int) {
    e.0 == e.1.symbol && IsSymbolShape(e.0) && e.1.atomicNumber == n
  }

  predicate DistinctKeys<K(==), V>(p: seq<(K, V)>) {
    forall i, j :: 0 <= i < j < |p| ==> p[i].0 != p[j].0
  }

  predicate KeysDisjoint<K(==), V>(p: seq<(K, V)>, q: seq<(K, V)>) {
    forall i, j :: 0 <= i < |p| && 0 <= j < |q| ==> p[i].0 != q[j].0
  }

  /** A key whose pair is not followed by another pair with the same key maps to that pair's value. */
  lemma {:induction false} DictOfLast<K, V>(pairs: seq<(K, V)>, i: int)
    requires 0 <= i < |pairs|
    requires forall j :: i < j < |pairs| ==> pairs[j].0 != pairs[i].0
    ensures pairs[i].0 in DictOf(pairs) && DictOf(pairs)[pairs[i].0] == pairs[i].1
  {
    if i < |pairs| - 1 {
      var init := pairs[..|pairs| - 1];
      assert init[i] == pairs[i];
      DictOfLast(init, i);
    }
  }

  // Facts about the literal, one row at a time. RowsApart0..9 together cover
  // all 28 pairs of distinct rows: the pairs (0,1), (0,2), (1,2), (0,3), (1,3),
  // (2,3), (0,4), ... in that order, cut into groups of three only so that each
  // proof stays small.

  lemma Row0WellFormed()
    ensures |Row0| == 10 && DistinctKeys(Row0)
    ensures forall i :: 0 <= i < 10 ==> RowOk(Row0[i], AtomicNumberAt(0 + i))
  {
  }

  lemma Row1WellFormed()
    ensures |Row1| == 10 && DistinctKeys(Row1)
    ensures forall i :: 0 <= i < 10 ==> RowOk(Row1[i], AtomicNumberAt(10 + i))
  {
  }

  lemma Row2WellFormed()
    ensures |Row2| == 10 && DistinctKeys(Row2)
    ensures forall i :: 0 <= i < 10 ==> RowOk(Row2[i], AtomicNumberAt(20 + i))
  {
  }

  lemma Row3WellFormed()
    ensures |Row3| == 10 && DistinctKeys(Row3)
    ensures forall i :: 0 <= i < 10 ==> RowOk(Row3[i], AtomicNumberAt(30 + i))
  {
  }

  lemma Row4WellFormed()
    ensures |Row4| == 10 && DistinctKeys(Row4)
    ensures forall i :: 0 <= i < 10 ==> RowOk(Row4[i], AtomicNumberAt(40 + i))
  {
  }

  lemma Row5WellFormed()
    ensures |Row5| == 10 && DistinctKeys(Row5)
    ensures forall i :: 0 <= i < 10 ==> RowOk(Row5[i], AtomicNumberAt(50 + i))
  {
  }

  lemma Row6WellFormed()
    ensures |Row6| == 10 && DistinctKeys(Row6)
    ensures forall i :: 0 <= i < 10 ==> RowOk(Row6[i], AtomicNumberAt(60 + i))
  {
  }

  lemma Row7WellFormed()
    ensures |Row7| == 10 && DistinctKeys(Row7)
    ensures forall i :: 0 <= i < 10 ==> RowOk(Row7[i], AtomicNumberAt(70 + i))
  {
  }

  lemma RowsApart0()
    ensures KeysDisjoint(Row0, Row1) && KeysDisjoint(Row0, Row2) && KeysDisjoint(Row1, Row2)
  {
  }

  lemma RowsApart1()
    ensures KeysDisjoint(Row0, Row3) && KeysDisjoint(Row1, Row3) && KeysDisjoint(Row2, Row3)
  {
  }

  lemma RowsApart2()
    ensures KeysDisjoint(Row0, Row4) && KeysDisjoint(Row1, Row4) && KeysDisjoint(Row2, Row4)
  {
  }

  lemma RowsApart3()
    ensures KeysDisjoint(Row3, Row4) && KeysDisjoint(Row0, Row5) && KeysDisjoint(Row1, Row5)
  {
  }

  lemma RowsApart4()
    ensures KeysDisjoint(Row2, Row5) && KeysDisjoint(Row3, Row5) && KeysDisjoint(Row4, Row5)
  {
  }

  lemma RowsApart5()
    ensures KeysDisjoint(Row0, Row6) && KeysDisjoint(Row1, Row6) && KeysDisjoint(Row2, Row6)
  {
  }

  lemma RowsApart6()
    ensures KeysDisjoint(Row3, Row6) && KeysDisjoint(Row4, Row6) && KeysDisjoint(Row5, Row6)
  {
  }

  lemma RowsApart7()
    ensures KeysDisjoint(Row0, Row7) && KeysDisjoint(Row1, Row7) && KeysDisjoint(Row2, Row7)
  {
  }

  lemma RowsApart8()
    ensures KeysDisjoint(Row3, Row7) && KeysDisjoint(Row4, Row7) && KeysDisjoint(Row5, Row7)
  {
  }

  lemma RowsApart9()
    ensures KeysDisjoint(Row6, Row7)
  {
  }

  /** Every pair of the literal has a key equal to its record's symbol, of symbol
      shape, and the atomic numbers run 1, 2, ..., 79 and then 118 (Chatnot.py:15-94). */
  lemma EntriesWellFormed()
    ensures |Entries| == 80
    ensures forall i :: 0 <= i < |Entries| ==> RowOk(Entries[i], AtomicNumberAt(i))
  {
    Row0WellFormed(); Row1WellFormed(); Row2WellFormed(); Row3WellFormed(); Row4WellFormed(); Row5WellFormed(); Row6WellFormed(); Row7WellFormed();
  }

  /** No key of the literal is repeated, so no pair is overridden. */
  lemma EntryKeysDistinct()
    ensures DistinctKeys(Entries)
  {
    Row0WellFormed(); Row1WellFormed(); Row2WellFormed(); Row3WellFormed(); Row4WellFormed(); Row5WellFormed(); Row6WellFormed(); Row7WellFormed();
    RowsApart0(); RowsApart1(); RowsApart2(); RowsApart3(); RowsApart4(); RowsApart5(); RowsApart6(); RowsApart7(); RowsApart8(); RowsApart9();
  }

  /** Every key of the table equals the `symbol` of its record and is one or two
      upper-case letters (Chatnot.py:15-94). */
  lemma TableKeysAreSymbols()
    ensures forall k :: k in Table ==> Table[k].symbol == k && IsSymbolShape(k)
  {
    EntriesWellFormed();
  }

  /** The atomic numbers in the table lie in 1..79 or are 118, and no two
      symbols share one (Chatnot.py:15-94). */
  lemma TableAtomicNumbers()
    ensures forall k :: k in Table ==> IsListedNumber(Table[k].atomicNumber)
    ensures forall k1, k2 :: k1 in Table && k2 in Table && k1 != k2 ==>
      Table[k1].atomicNumber != Table[k2].atomicNumber
  {
    EntriesWellFormed();
  }

  /** Each of 1..79 and 118 is the atomic number of some symbol in the table
      (Chatnot.py:15-94). */
  lemma TableCoversNumbers()
    ensures forall n :: IsListedNumber(n) ==> exists k :: k in Table && Table[k].atomicNumber == n
  {
    EntriesWellFormed();
    EntryKeysDistinct();
    forall n | IsListedNumber(n) ensures exists k :: k in Table && Table[k].atomicNumber == n {
      var i := if n == 118 then 79 else n - 1;
      DictOfLast(Entries, i);
      assert Table[Entries[i].0].atomicNumber == n;
    }
  }

  /** What every lookup relies on: each key is the `symbol` of its record and has
      the shape of a chemical symbol. */
  ghost predicate WellFormed(table: map<string, Element>) {
    forall k :: k in table ==> table[k].symbol == k && IsSymbolShape(k)
  }

  lemma TableWellFormed()
    ensures WellFormed(Table)
  {
    TableKeysAreSymbols();
  }

  /** `symbol in table`, then `table[symbol]` (Chatnot.py:178-180): an exact-key lookup. */
  function Lookup(table: map<string, Element>, symbol: string): (r: Option<Element>)
    ensures r.Some? <==> symbol in table
    ensures r.Some? ==> r.value == table[symbol]
    ensures WellFormed(table) && r.Some? ==> r.value.symbol == symbol
    ensures WellFormed(table) && !IsSymbolShape(symbol) ==> r == None
  {
    if symbol in table then Some(table[symbol]) else None
  }

  /** The record behind "FE". */
  lemma LookupIron()
    ensures Lookup(Table, "FE") == Some(Element("Iron", 26, "FE"))
  {
    EntryKeysDistinct();
    assert Entries[25] == ("FE", Element("Iron", 26, "FE"));
    DictOfLast(Entries, 25);
  }
}
