/** CHARMm atom-type data (RbtCharmmDataSource): tables built once from the
    atom-type list of a masses file, and the lookups rDock makes in them. */
module CharmmData {
  import opened Wrappers
  import opened Text

  /** Hybridisation states (RbtAtom::eHybridState). */
  datatype HybridState = UNDEFINED | SP | SP2 | SP3 | AROM | TRI

  /** One entry of the atom-type list: type number, type name, element, comment. */
  datatype CharmmType = CharmmType(nAtomType: int, strAtomType: string, element: string, comment: string)

  datatype MissingParameter = MissingTypeNumber(nAtomType: int) | MissingTypeName(strFFType: string)

  /** The comment marker of each hybridisation state; brackets included. */
  function HybridMarker(h: HybridState): string
  {
    match h
    case SP => "(RBT::SP)"
    case SP2 => "(RBT::SP2)"
    case SP3 => "(RBT::SP3)"
    case AROM => "(RBT::AROM)"
    case TRI => "(RBT::TRI)"
    case UNDEFINED => ""
  }

  /** Priority of the marker search: SP first, TRI last. */
  function Priority(h: HybridState): nat
  {
    match h
    case SP => 0
    case SP2 => 1
    case SP3 => 2
    case AROM => 3
    case TRI => 4
    case UNDEFINED => 5
  }

  /** The hybridisation state a masses-file comment encodes: the first marker,
      in priority order, that occurs in the comment; UNDEFINED if none does. */
  function ConvertCommentStringToHybridState(comment: string): (h: HybridState)
    ensures h != UNDEFINED ==> Contains(comment, HybridMarker(h))
    ensures forall g :: g != UNDEFINED && Priority(g) < Priority(h) ==> !Contains(comment, HybridMarker(g))
  {
    if Contains(comment, "(RBT::SP)") then SP
    else if Contains(comment, "(RBT::SP2)") then SP2
    else if Contains(comment, "(RBT::SP3)") then SP3
    else if Contains(comment, "(RBT::AROM)") then AROM
    else if Contains(comment, "(RBT::TRI)") then TRI
    else UNDEFINED
  }

  /** A bracketed pattern found in a string whose only opening bracket is its
      first character and whose only closing bracket is its last is that string. */
  lemma BracketedOccurrence(m: string, pat: string)
    requires |pat| >= 2 && pat[0] == '(' && pat[|pat| - 1] == ')'
    requires forall k :: 0 < k < |m| ==> m[k] != '('
    requires forall k :: 0 <= k < |m| - 1 ==> m[k] != ')'
    ensures Contains(m, pat) ==> pat == m
  {
    if Contains(m, pat) {
      var i: nat :| OccursAt(m, pat, i);
      assert m[i] == m[i..i + |pat|][0] == '(';
      assert m[i + |pat| - 1] == m[i..i + |pat|][|pat| - 1] == ')';
    }
  }

  /** Every marker is bracketed, with no other bracket inside it. */
  lemma MarkerShape(h: HybridState)
    requires h != UNDEFINED
    ensures var m := HybridMarker(h);
            |m| >= 2 && m[0] == '(' && m[|m| - 1] == ')' &&
            (forall k :: 0 < k < |m| ==> m[k] != '(') &&
            (forall k :: 0 <= k < |m| - 1 ==> m[k] != ')')
  {
  }

  /** Each marker on its own is read back as its state; in particular the
      brackets keep `(RBT::SP2)` and `(RBT::SP3)` from reading as SP. */
  lemma MarkerRoundTrip(h: HybridState)
    requires h != UNDEFINED
    ensures ConvertCommentStringToHybridState(HybridMarker(h)) == h
  {
    var m := HybridMarker(h);
    MarkerShape(h);
    forall g | g != UNDEFINED && Priority(g) < Priority(h)
      ensures !Contains(m, HybridMarker(g))
    {
      MarkerShape(g);
      BracketedOccurrence(m, HybridMarker(g));
    }
    assert Contains(m, m) by {
      ContainsInfix([], m, []);
      assert [] + m + [] == m;
    }
  }

  /** The implicit-hydrogen counts of the united-atom types. */
  const ImplicitHydrogenTable: map<string, int> :=
    map["CH1E" := 1, "CH2E" := 2, "CH3E" := 3, "C5RE" := 1, "C6RE" := 1, "SH1E" := 1, "NH2E" := 2]

  /** The charged types; only the sign of the charge is meaningful. */
  const FormalChargeTable: map<string, int> := map["OC" := -1, "HC" := 1, "NC" := 1]

  // ---------------------------------------------------------------------------
  // Tables built from the type list, later entries overwriting earlier ones

  function TypeNumber(t: CharmmType): int { t.nAtomType }
  function TypeName(t: CharmmType): string { t.strAtomType }
  function TypeHybridState(t: CharmmType): HybridState { ConvertCommentStringToHybridState(t.comment) }

  /** The atomic number of an entry's element, given the element table. */
  function TypeAtomicNumber(atomicNo: string -> int): CharmmType -> int
  {
    (t: CharmmType) => atomicNo(t.element)
  }

  /** The map made by inserting `key(t) := val(t)` for each entry in list order. */
  function Build<K, V>(types: seq<CharmmType>, key: CharmmType -> K, val: CharmmType -> V): map<K, V>
  {
    if types == [] then map[]
    else Build(types[..|types| - 1], key, val)[key(types[|types| - 1]) := val(types[|types| - 1])]
  }

  /** `i` is the last position of the list whose entry has key `k`. */
  ghost predicate IsLastWith<K>(types: seq<CharmmType>, key: CharmmType -> K, k: K, i: int)
  {
    0 <= i < |types| && key(types[i]) == k && forall j :: i < j < |types| ==> key(types[j]) != k
  }

  /** A key is in the table exactly when some entry has it. */
  lemma {:induction false} BuildDomain<K, V>(types: seq<CharmmType>, key: CharmmType -> K, val: CharmmType -> V, k: K)
    ensures k in Build(types, key, val) <==> exists i :: 0 <= i < |types| && key(types[i]) == k
  {
    if types != [] {
      var n := |types| - 1;
      var init := types[..n];
      BuildDomain(init, key, val, k);
      if k in Build(init, key, val) {
        var i :| 0 <= i < |init| && key(init[i]) == k;
        assert types[i] == init[i];
      }
      if key(types[n]) != k {
        forall i | 0 <= i < n && key(types[i]) == k
          ensures key(init[i]) == k
        {
          assert types[i] == init[i];
        }
      }
    }
  }

  /** The value of a key in the table comes from the last entry that has it. */
  lemma {:induction false} BuildLastWins<K, V>(types: seq<CharmmType>, key: CharmmType -> K, val: CharmmType -> V, k: K)
    requires k in Build(types, key, val)
    ensures exists i :: IsLastWith(types, key, k, i) && Build(types, key, val)[k] == val(types[i])
  {
    var n := |types| - 1;
    var init := types[..n];
    if key(types[n]) == k {
      assert IsLastWith(types, key, k, n);
    } else {
      BuildLastWins(init, key, val, k);
      var i :| IsLastWith(init, key, k, i) && Build(init, key, val)[k] == val(init[i]);
      assert types[i] == init[i];
      assert IsLastWith(types, key, k, i);
    }
  }

  class CharmmDataSource {
    var atomTypes: map<int, string>
    var atomicNumber: map<string, int>
    var hybridState: map<string, HybridState>
    var implicitHydrogens: map<string, int>
    var formalCharge: map<string, int>
    /** The type list and element table the tables were built from. */
    ghost const typeList: seq<CharmmType>
    ghost const elementAtomicNo: string -> int

    ghost predicate Valid()
      reads this
    {
      && atomTypes == Build(typeList, TypeNumber, TypeName)
      && atomicNumber == Build(typeList, TypeName, TypeAtomicNumber(elementAtomicNo))
      && hybridState == Build(typeList, TypeName, TypeHybridState)
      && implicitHydrogens == ImplicitHydrogenTable
      && formalCharge == FormalChargeTable
    }

    /** Fills the three type tables from the list, in list order, and the two
        fixed tables. `elementAtomicNo` is the element data source's atomic number. */
    constructor(typeList: seq<CharmmType>, elementAtomicNo: string -> int)
      ensures Valid() && this.typeList == typeList && this.elementAtomicNo == elementAtomicNo
    {
      var types: map<int, string> := map[];
      var numbers: map<string, int> := map[];
      var states: map<string, HybridState> := map[];
      var k := 0;
      while k < |typeList|
        invariant k <= |typeList|
        invariant types == Build(typeList[..k], TypeNumber, TypeName)
        invariant numbers == Build(typeList[..k], TypeName, TypeAtomicNumber(elementAtomicNo))
        invariant states == Build(typeList[..k], TypeName, TypeHybridState)
      {
        var t := typeList[k];
        assert typeList[..k + 1][..k] == typeList[..k];
        types := types[t.nAtomType := t.strAtomType];
        numbers := numbers[t.strAtomType := elementAtomicNo(t.element)];
        states := states[t.strAtomType := ConvertCommentStringToHybridState(t.comment)];
        k := k + 1;
      }
      assert typeList[..k] == typeList;
      this.typeList := typeList;
      this.elementAtomicNo := elementAtomicNo;
      atomTypes := types;
      atomicNumber := numbers;
      hybridState := states;
      implicitHydrogens := ImplicitHydrogenTable;
      formalCharge := FormalChargeTable;
    }

    /** The type name of a type number: that of the last list entry with the
        number; a number not in the list is a missing parameter. */
    method AtomTypeString(nAtomType: int) returns (r: Result<string, MissingParameter>)
      requires Valid()
      ensures r.Ok? <==> exists i :: 0 <= i < |typeList| && typeList[i].nAtomType == nAtomType
      ensures r.Ok? ==> exists i :: IsLastWith(typeList, TypeNumber, nAtomType, i) && r.value == typeList[i].strAtomType
      ensures r.Err? ==> r.error == MissingTypeNumber(nAtomType)
    {
      BuildDomain(typeList, TypeNumber, TypeName, nAtomType);
      if nAtomType in atomTypes {
        BuildLastWins(typeList, TypeNumber, TypeName, nAtomType);
        r := Ok(atomTypes[nAtomType]);
      } else {
        r := Err(MissingTypeNumber(nAtomType));
      }
    }

    /** The number of implicit hydrogens of a type; 0 for every other name, never an error. */
    method ImplicitHydrogens(strFFType: string) returns (n: int)
      requires Valid()
      ensures 0 <= n <= 3
      ensures n > 0 <==> strFFType in {"CH1E", "CH2E", "CH3E", "C5RE", "C6RE", "SH1E", "NH2E"}
      ensures strFFType in {"CH2E", "NH2E"} <==> n == 2
      ensures strFFType == "CH3E" <==> n == 3
    {
      if strFFType in implicitHydrogens {
        n := implicitHydrogens[strFFType];
      } else {
        n := 0;
      }
    }

    /** The atomic number of a type name: the element of the last list entry
        with that name; a name not in the list is a missing parameter. */
    method AtomicNumber(strFFType: string) returns (r: Result<int, MissingParameter>)
      requires Valid()
      ensures r.Ok? <==> exists i :: 0 <= i < |typeList| && typeList[i].strAtomType == strFFType
      ensures r.Ok? ==> exists i :: IsLastWith(typeList, TypeName, strFFType, i) &&
                                     r.value == elementAtomicNo(typeList[i].element)
      ensures r.Err? ==> r.error == MissingTypeName(strFFType)
    {
      BuildDomain(typeList, TypeName, TypeAtomicNumber(elementAtomicNo), strFFType);
      if strFFType in atomicNumber {
        BuildLastWins(typeList, TypeName, TypeAtomicNumber(elementAtomicNo), strFFType);
        r := Ok(atomicNumber[strFFType]);
      } else {
        r := Err(MissingTypeName(strFFType));
      }
    }

    /** The sign of a type's formal charge: -1 for OC, +1 for HC and NC, 0 for
        every other name, never an error. */
    method FormalCharge(strFFType: string) returns (q: int)
      requires Valid()
      ensures q < 0 <==> strFFType == "OC"
      ensures q > 0 <==> strFFType in {"HC", "NC"}
      ensures -1 <= q <= 1
    {
      if strFFType in formalCharge {
        q := formalCharge[strFFType];
      } else {
        q := 0;
      }
    }

    /** The hybridisation state of a type name: the comment of the last list
        entry with that name decides; a name not in the list is a missing parameter. */
    method HybridState(strFFType: string) returns (r: Result<HybridState, MissingParameter>)
      requires Valid()
      ensures r.Ok? <==> exists i :: 0 <= i < |typeList| && typeList[i].strAtomType == strFFType
      ensures r.Ok? ==> exists i :: IsLastWith(typeList, TypeName, strFFType, i) &&
                                     r.value == ConvertCommentStringToHybridState(typeList[i].comment)
      ensures r.Err? ==> r.error == MissingTypeName(strFFType)
    {
      BuildDomain(typeList, TypeName, TypeHybridState, strFFType);
      if strFFType in hybridState {
        BuildLastWins(typeList, TypeName, TypeHybridState, strFFType);
        r := Ok(hybridState[strFFType]);
      } else {
        r := Err(MissingTypeName(strFFType));
      }
    }
  }

  /** Every type name in the list has both an atomic number and a hybridisation state. */
  lemma {:induction false} EveryListedTypeHasData(types: seq<CharmmType>, atomicNo: string -> int, i: nat)
    requires i < |types|
    ensures types[i].strAtomType in Build(types, TypeName, TypeAtomicNumber(atomicNo))
    ensures types[i].strAtomType in Build(types, TypeName, TypeHybridState)
  {
    BuildDomain(types, TypeName, TypeAtomicNumber(atomicNo), types[i].strAtomType);
    BuildDomain(types, TypeName, TypeHybridState, types[i].strAtomType);
  }
}
