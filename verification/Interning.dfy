/** The tables of a function under compilation: interned constants and local
    slots, both searched by name and extended in place. */
module Interning {
  import opened Syntax
  import opened Machine
  import opened CodeGen
  import BigIntLiteral
  import Numerals

  /** One index per key, by kind of constant. */
  datatype Keys = Keys(byStr: map<string, nat>, byNum: map<int, nat>, byBigInt: map<string, nat>)

  predicate KeyIn(v: Value, ks: Keys) {
    match v
    case Str(s) => s in ks.byStr
    case Integer(n) => n in ks.byNum
    case BigInt(d) => d in ks.byBigInt
    case _ => false
  }

  function KeyIndex(v: Value, ks: Keys): nat
    requires KeyIn(v, ks)
  {
    match v
    case Str(s) => ks.byStr[s]
    case Integer(n) => ks.byNum[n]
    case BigInt(d) => ks.byBigInt[d]
  }

  /** The keys are exactly the inverse of the item vector. */
  ghost predicate Inverse(items: seq<Value>, ks: Keys) {
    && (forall v :: KeyIn(v, ks) ==> KeyIndex(v, ks) < |items| && items[KeyIndex(v, ks)] == v)
    && (forall i :: 0 <= i < |items| ==> KeyIn(items[i], ks) && KeyIndex(items[i], ks) == i)
  }

  lemma InverseFinds(items: seq<Value>, ks: Keys, v: Value)
    requires Inverse(items, ks)
    ensures KeyIn(v, ks) <==> v in items
    ensures KeyIn(v, ks) ==> KeyIndex(v, ks) < |items| && items[KeyIndex(v, ks)] == v
    ensures forall i, j :: 0 <= i < j < |items| ==> items[i] != items[j]
  {
  }

  /** A new constant at the end, with its key. */
  lemma InverseAdds(items: seq<Value>, ks: Keys, more: Keys, v: Value)
    requires Inverse(items, ks) && !KeyIn(v, ks) && KeyIn(v, more) && KeyIndex(v, more) == |items|
    requires forall w :: w != v ==>
               (KeyIn(w, more) <==> KeyIn(w, ks)) && (KeyIn(w, ks) ==> KeyIndex(w, more) == KeyIndex(w, ks))
    ensures Inverse(items + [v], more)
  {
    var all := items + [v];
    forall i | 0 <= i < |all| ensures KeyIn(all[i], more) && KeyIndex(all[i], more) == i {
      if i < |items| {
        assert KeyIn(items[i], ks) && KeyIndex(items[i], ks) == i;
      }
    }
  }

  /** Constants in the order of their indices, with one index per key kind. */
  class ConstantPool {
    var items: seq<Value>
    var byStr: map<string, nat>
    var byNum: map<int, nat>
    var byBigInt: map<string, nat>

    function AllKeys(): Keys
      reads this
    {
      Keys(byStr, byNum, byBigInt)
    }

    ghost predicate Valid()
      reads this
    {
      Inverse(items, AllKeys())
    }

    constructor ()
      ensures Valid() && items == []
    {
      items, byStr, byNum, byBigInt := [], map[], map[], map[];
    }

    method InternStr(s: string) returns (index: nat)
      requires Valid()
      modifies this
      ensures Valid() && index < |items| && items[index] == Str(s)
      ensures items == if Str(s) in old(items) then old(items) else old(items) + [Str(s)]
    {
      hide Inverse;
      InverseFinds(items, AllKeys(), Str(s));
      if s in byStr {
        return byStr[s];
      }
      index := Append(Str(s));
      byStr := byStr[s := index];
      InverseAdds(old(items), old(AllKeys()), AllKeys(), Str(s));
    }

    method InternInt(n: int) returns (index: nat)
      requires Valid()
      modifies this
      ensures Valid() && index < |items| && items[index] == Integer(n)
      ensures items == if Integer(n) in old(items) then old(items) else old(items) + [Integer(n)]
    {
      hide Inverse;
      InverseFinds(items, AllKeys(), Integer(n));
      if n in byNum {
        return byNum[n];
      }
      index := Append(Integer(n));
      byNum := byNum[n := index];
      InverseAdds(old(items), old(AllKeys()), AllKeys(), Integer(n));
    }

    /** The entry is the decimal text of the number that the literal stands for. */
    method InternBigInt(raw: string) returns (index: nat)
      requires Valid() && exists n :: Numerals.Denotes(raw, n)
      modifies this
      ensures Valid() && index < |items| && items[index].BigInt?
      ensures forall n :: Numerals.Denotes(raw, n) ==> Numerals.DecimalText(items[index].decimal, n)
      ensures items == if items[index] in old(items) then old(items) else old(items) + [items[index]]
    {
      hide Inverse, Numerals.Denotes, Numerals.DecimalText;
      var decimal := BigIntLiteral.FromLiteral(raw);
      InverseFinds(items, AllKeys(), BigInt(decimal));
      if decimal in byBigInt {
        return byBigInt[decimal];
      }
      index := Append(BigInt(decimal));
      byBigInt := byBigInt[decimal := index];
      InverseAdds(old(items), old(AllKeys()), AllKeys(), BigInt(decimal));
    }

    method Append(v: Value) returns (index: nat)
      modifies this`items
      ensures items == old(items) + [v] && index == |old(items)|
    {
      index := |items|;
      items := items + [v];
    }
  }

  /** Two BigInt literals interned one after the other get the same index
      exactly when they denote the same integer. */
  method InternTwo(pool: ConstantPool, a: string, b: string, ghost m: nat, ghost n: nat) returns (i: nat, j: nat)
    requires pool.Valid() && Numerals.Denotes(a, m) && Numerals.Denotes(b, n)
    modifies pool
    ensures pool.Valid()
    ensures i == j <==> m == n
  {
    hide Numerals.Denotes, Numerals.DecimalText;
    i := pool.InternBigInt(a);
    ghost var before := pool.items;
    j := pool.InternBigInt(b);
    assert pool.items[i] == before[i];
    Numerals.SameText(pool.items[i].decimal, m, pool.items[j].decimal, n);
  }

  /** The interned index of the specification is the only possible one. */
  lemma InternUnique(v: Value, T: Tables, items: seq<Value>, index: nat)
    requires items == if v in T.consts then T.consts else T.consts + [v]
    requires index < |items| && items[index] == v
    requires forall i, j :: 0 <= i < j < |items| ==> items[i] != items[j]
    ensures InternConst(v, T) == Interned(index, T.(consts := items))
  {
    var r := InternConst(v, T);
    assert r.tabs.consts == items;
    assert items[r.index] == v;
  }

  /** Slots of one function. Parameters take the first ones, by position. */
  class LocalTable {
    var byName: map<LocalName, nat>
    var count: nat
    const paramCount: nat

    /** Every slot is allocated, and only parameters share one. */
    ghost predicate Valid()
      reads this
    {
      && paramCount <= count
      && (forall n :: n in byName ==> byName[n] < count)
      && (forall m, n :: m in byName && n in byName && m != n && byName[m] == byName[n] ==> byName[m] < paramCount)
    }

    constructor (paramCount: nat)
      ensures Valid() && byName == map[] && count == paramCount == this.paramCount
    {
      this.paramCount := paramCount;
      count, byName := paramCount, map[];
    }

    method Intern(name: LocalName) returns (slot: nat)
      requires Valid()
      modifies this
      ensures forall consts :: InternLocal(name, Tables(consts, old(byName), old(count)))
                               == Interned(slot, Tables(consts, byName, count))
      ensures Valid() && slot < count
      ensures name !in old(byName) ==> paramCount <= slot && forall n :: n in old(byName) ==> byName[n] != slot
    {
      if name in byName {
        return byName[name];
      }
      slot := count;
      count := count + 1;
      byName := byName[name := slot];
    }

    /** The last parameter of a name keeps it. */
    method BindParameter(name: LocalName, slot: nat)
      requires Valid() && slot < paramCount
      modifies this`byName
      ensures Valid() && byName == old(byName)[name := slot]
    {
      byName := byName[name := slot];
    }
  }
}
