/**
 * The analytics page: the equipment counted per type, in the order the types
 * first occur, the type chart built from those counts, and the three slices
 * of the health distribution.
 */
module Analytics {
  import opened Types
  import opened Seqs
  import opened Formatters

  function OfType(t: EquipmentType): Equipment -> bool {
    (e: Equipment) => e.equipmentType == t
  }

  /** The number of equipment of type `t`. */
  function CountOf(eqs: seq<Equipment>, t: EquipmentType): nat {
    |Filter(eqs, OfType(t))|
  }

  /**
   * The types in the order they first occur: the order in which the reduce
   * adds keys to its object, which is the order `Object.entries` lists them.
   */
  function FirstOccurrences(eqs: seq<Equipment>): seq<EquipmentType> {
    if eqs == [] then []
    else
      var seen := FirstOccurrences(eqs[..|eqs| - 1]);
      var t := eqs[|eqs| - 1].equipmentType;
      if t in seen then seen else seen + [t]
  }

  predicate Distinct(s: seq<EquipmentType>) {
    forall i, j :: 0 <= i < j < |s| ==> s[i] != s[j]
  }

  /** Each type occurs once in the key order, and exactly the types present do. */
  lemma {:induction false} FirstOccurrencesMeaning(eqs: seq<Equipment>)
    ensures Distinct(FirstOccurrences(eqs))
    ensures forall t :: t in FirstOccurrences(eqs) <==> exists e :: e in eqs && e.equipmentType == t
  {
    if eqs != [] {
      var init := eqs[..|eqs| - 1];
      FirstOccurrencesMeaning(init);
      assert eqs == init + [eqs[|eqs| - 1]];
      forall t
        ensures t in FirstOccurrences(eqs) <==> exists e :: e in eqs && e.equipmentType == t
      {
        if t in FirstOccurrences(init) {
          var e :| e in init && e.equipmentType == t;
          assert e in eqs;
        }
      }
    }
  }

  /** One more equipment adds one to the count of its own type and nothing to the others. */
  lemma CountOfSnoc(eqs: seq<Equipment>, e: Equipment, t: EquipmentType)
    ensures CountOf(eqs + [e], t) == CountOf(eqs, t) + (if e.equipmentType == t then 1 else 0)
  {
    FilterAppend(eqs, [e], OfType(t));
    assert Filter([e], OfType(t)) == (if e.equipmentType == t then [e] else []) + Filter([e][1..], OfType(t));
  }

  /** The counts of the types `types`, added up. */
  function SumCounts(eqs: seq<Equipment>, types: seq<EquipmentType>): nat {
    if types == [] then 0
    else SumCounts(eqs, types[..|types| - 1]) + CountOf(eqs, types[|types| - 1])
  }

  lemma {:induction false} SumCountsSnoc(eqs: seq<Equipment>, e: Equipment, types: seq<EquipmentType>)
    requires Distinct(types)
    ensures SumCounts(eqs + [e], types) == SumCounts(eqs, types) + (if e.equipmentType in types then 1 else 0)
  {
    if types != [] {
      var init := types[..|types| - 1];
      var t := types[|types| - 1];
      assert types == init + [t];
      SumCountsSnoc(eqs, e, init);
      CountOfSnoc(eqs, e, t);
      assert forall k :: 0 <= k < |init| ==> init[k] == types[k];
      assert t !in init;
      assert e.equipmentType in types <==> e.equipmentType in init || e.equipmentType == t;
    }
  }

  /** An absent type adds nothing: the counts of any types lie within the list. */
  lemma {:induction false} CountOfAbsent(eqs: seq<Equipment>, t: EquipmentType)
    requires forall e :: e in eqs ==> e.equipmentType != t
    ensures CountOf(eqs, t) == 0
  {
    if eqs != [] {
      CountOfAbsent(eqs[1..], t);
    }
  }

  /** The per-type counts add up to the number of equipment. */
  lemma {:induction false} CountsSumToTotal(eqs: seq<Equipment>)
    ensures SumCounts(eqs, FirstOccurrences(eqs)) == |eqs|
  {
    if eqs != [] {
      var init := eqs[..|eqs| - 1];
      var e := eqs[|eqs| - 1];
      assert eqs == init + [e];
      CountsSumToTotal(init);
      FirstOccurrencesMeaning(init);
      var seen := FirstOccurrences(init);
      SumCountsSnoc(init, e, seen);
      if e.equipmentType !in seen {
        CountOfAbsent(init, e.equipmentType);
        CountOfSnoc(init, e, e.equipmentType);
        assert (seen + [e.equipmentType])[..|seen|] == seen;
      }
    }
  }

  /** One slice of the type chart. */
  datatype TypeSlice = TypeSlice(name: string, value: nat)

  /** `typeData`: one slice per type present, in first-occurrence order, with its count. */
  function TypeData(eqs: seq<Equipment>): (slices: seq<TypeSlice>)
    ensures |slices| == |FirstOccurrences(eqs)|
    ensures forall i :: 0 <= i < |slices| ==>
      slices[i] == TypeSlice(EquipmentTypeName(FirstOccurrences(eqs)[i]), CountOf(eqs, FirstOccurrences(eqs)[i]))
  {
    var types := FirstOccurrences(eqs);
    seq(|types|, i requires 0 <= i < |types| => TypeSlice(EquipmentTypeName(types[i]), CountOf(eqs, types[i])))
  }

  /** The object the reduce builds over `eqs`, one entry bumped per equipment. */
  function Counts(eqs: seq<Equipment>): map<EquipmentType, nat> {
    if eqs == [] then map[]
    else
      var m := Counts(eqs[..|eqs| - 1]);
      var t := eqs[|eqs| - 1].equipmentType;
      m[t := (if t in m then m[t] else 0) + 1]
  }

  /** One more equipment: the prefix's object and key order, extended by its type. */
  lemma PrefixStep(eqs: seq<Equipment>, i: int)
    requires 0 <= i < |eqs|
    ensures var t, m, keys := eqs[i].equipmentType, Counts(eqs[..i]), FirstOccurrences(eqs[..i]);
      && Counts(eqs[..i + 1]) == m[t := (if t in m then m[t] else 0) + 1]
      && FirstOccurrences(eqs[..i + 1]) == (if t in keys then keys else keys + [t])
  {
    assert eqs[..i + 1][..i] == eqs[..i];
  }

  /**
   * The reduce's object has a key exactly for each type in the key order, and
   * each entry is the number of equipment of that type.
   */
  lemma {:induction false} CountsMeaning(eqs: seq<Equipment>)
    ensures forall t :: t in Counts(eqs) <==> t in FirstOccurrences(eqs)
    ensures forall t :: t in Counts(eqs) ==> Counts(eqs)[t] == CountOf(eqs, t)
  {
    if eqs != [] {
      var init := eqs[..|eqs| - 1];
      var e := eqs[|eqs| - 1];
      assert eqs == init + [e];
      CountsMeaning(init);
      FirstOccurrencesMeaning(init);
      forall u | u in Counts(eqs)
        ensures Counts(eqs)[u] == CountOf(eqs, u)
      {
        CountOfSnoc(init, e, u);
        if u == e.equipmentType && u !in Counts(init) {
          CountOfAbsent(init, u);
        }
      }
    }
  }

  /** A type is a key of the reduce's object exactly when it is in the key order. */
  lemma KeyAgrees(eqs: seq<Equipment>, t: EquipmentType)
    ensures t in Counts(eqs) <==> t in FirstOccurrences(eqs)
  {
    CountsMeaning(eqs);
  }

  /**
   * The page's reduce: a loop that bumps the count of each equipment's type
   * in an object, adding a key on its first occurrence, which is also where
   * the type joins the object's key order.
   */
  method CountTypes(eqs: seq<Equipment>) returns (byType: map<EquipmentType, nat>, keys: seq<EquipmentType>)
    ensures byType == Counts(eqs)
    ensures keys == FirstOccurrences(eqs)
  {
    byType := map[];
    keys := [];
    var i := 0;
    while i < |eqs|
      invariant 0 <= i <= |eqs|
      invariant byType == Counts(eqs[..i])
      invariant keys == FirstOccurrences(eqs[..i])
    {
      var t := eqs[i].equipmentType;
      PrefixStep(eqs, i);
      KeyAgrees(eqs[..i], t);
      if t in byType {
        byType := byType[t := byType[t] + 1];
      } else {
        byType := byType[t := 1];
        keys := keys + [t];
      }
      i := i + 1;
    }
    assert eqs[..i] == eqs;
  }

  /**
   * The reduce followed by `Object.entries`, one slice per entry in key order.
   * Every key is a type that occurs, every type that occurs is a key, each
   * count is the number of that type, and the slices are the type chart.
   */
  method EquipmentByType(eqs: seq<Equipment>) returns (byType: map<EquipmentType, nat>, typeData: seq<TypeSlice>)
    ensures forall t :: t in byType <==> exists e :: e in eqs && e.equipmentType == t
    ensures forall t :: t in byType ==> byType[t] == CountOf(eqs, t)
    ensures typeData == TypeData(eqs)
  {
    var keys;
    byType, keys := CountTypes(eqs);
    CountsMeaning(eqs);
    FirstOccurrencesMeaning(eqs);
    typeData := seq(|keys|, k requires 0 <= k < |keys| => TypeSlice(EquipmentTypeName(keys[k]), byType[keys[k]]));
  }

  /** The type chart's values add up to the number of equipment. */
  function TotalValue(slices: seq<TypeSlice>): nat {
    if slices == [] then 0 else TotalValue(slices[..|slices| - 1]) + slices[|slices| - 1].value
  }

  lemma {:induction false} TypeDataTotal(eqs: seq<Equipment>)
    ensures TotalValue(TypeData(eqs)) == |eqs|
  {
    CountsSumToTotal(eqs);
    TotalMatchesSum(eqs, FirstOccurrences(eqs));
  }

  lemma {:induction false} TotalMatchesSum(eqs: seq<Equipment>, types: seq<EquipmentType>)
    ensures TotalValue(seq(|types|, i requires 0 <= i < |types| => TypeSlice(EquipmentTypeName(types[i]), CountOf(eqs, types[i]))))
      == SumCounts(eqs, types)
  {
    if types != [] {
      var init := types[..|types| - 1];
      TotalMatchesSum(eqs, init);
      var all := seq(|types|, i requires 0 <= i < |types| => TypeSlice(EquipmentTypeName(types[i]), CountOf(eqs, types[i])));
      assert all[..|all| - 1] == seq(|init|, i requires 0 <= i < |init| => TypeSlice(EquipmentTypeName(init[i]), CountOf(eqs, init[i])));
    }
  }

  /** One slice of the health pie. */
  datatype HealthSlice = HealthSlice(name: string, value: nat, color: string)

  /**
   * `healthDistribution`: Healthy, Warning and Critical, in that order, with
   * the summary's counts, each coloured as `getHealthColor` colours that label.
   */
  function HealthDistribution(stats: DashboardStats): (slices: seq<HealthSlice>)
    ensures |slices| == 3
    ensures slices[0].name == "Healthy" && slices[0].value == stats.healthy
    ensures slices[1].name == "Warning" && slices[1].value == stats.warning
    ensures slices[2].name == "Critical" && slices[2].value == stats.critical
    ensures forall i, score :: 0 <= i < 3 && GetHealthLabel(score) == slices[i].name ==> slices[i].color == GetHealthColor(score)
  {
    [ HealthSlice("Healthy", stats.healthy, "hsl(var(--success))"),
      HealthSlice("Warning", stats.warning, "hsl(var(--warning))"),
      HealthSlice("Critical", stats.critical, "hsl(var(--destructive))") ]
  }
}
