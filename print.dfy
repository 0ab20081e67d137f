/**
 * ScryfallPrint.java beyond its collector-number comparator (module
 * CollectorNumber): the variation rank of a print among its card's prints
 * in the same set, memoised in a field, and the registry of printed faces
 * that addFace fills.
 */
module ScryfallPrints {
  import opened Base
  import ApiCard
  import CollectorNumber

  // ---------------------------------------------------------------- the comparator on nullable numbers

  /** COLLECTOR_NUMBER_COMPARATOR: a null number makes the pattern matcher throw. */
  function CompareNumbers(a: Option<string>, b: Option<string>): Result<int>
  {
    if a.None? || b.None? then Err(NullPointer) else CollectorNumber.Compare(a.value, b.value)
  }

  lemma CompareNumbersAntisymmetric(a: Option<string>, b: Option<string>)
    ensures CompareNumbers(a, b).Err? <==> CompareNumbers(b, a).Err?
    ensures CompareNumbers(a, b).Ok? ==> CompareNumbers(a, b).value == -CompareNumbers(b, a).value
  {
    if a.Some? && b.Some? {
      CollectorNumber.CompareAntisymmetric(a.value, b.value);
    }
  }

  /** A comparator whose swapped calls throw together and otherwise give opposite results. */
  ghost predicate Antisymmetric<T(!new)>(cmp: (T, T) -> Result<int>)
  {
    forall a, b :: (cmp(a, b).Err? <==> cmp(b, a).Err?) && (cmp(a, b).Ok? ==> cmp(a, b).value == -cmp(b, a).value)
  }

  lemma CompareNumbersIsAntisymmetric()
    ensures Antisymmetric(CompareNumbers)
  {
    forall a, b ensures (CompareNumbers(a, b).Err? <==> CompareNumbers(b, a).Err?) && (CompareNumbers(a, b).Ok? ==> CompareNumbers(a, b).value == -CompareNumbers(b, a).value) {
      CompareNumbersAntisymmetric(a, b);
    }
  }

  /** No element of s is compared above the next one. */
  ghost predicate Ordered<T>(cmp: (T, T) -> Result<int>, s: seq<T>)
  {
    forall i :: 0 < i < |s| ==> cmp(s[i - 1], s[i]).Ok? && cmp(s[i - 1], s[i]).value <= 0
  }

  // ---------------------------------------------------------------- sorted(COLLECTOR_NUMBER_COMPARATOR)

  /** x placed before the first element of s it does not follow, which keeps equal elements in their order. */
  function Insert<T>(cmp: (T, T) -> Result<int>, x: T, s: seq<T>): Result<seq<T>>
  {
    if s == [] then Ok([x])
    else
      match cmp(x, s[0])
      case Err(e) => Err(e)
      case Ok(c) =>
        if c <= 0 then Ok([x] + s)
        else
          match Insert(cmp, x, s[1..])
          case Ok(t) => Ok([s[0]] + t)
          case Err(e) => Err(e)
  }

  /**
   * The stream's stable sort, as an insertion sort; a comparison that throws
   * ends the sort with its exception.
   */
  function Sort<T>(cmp: (T, T) -> Result<int>, s: seq<T>): Result<seq<T>>
  {
    if s == [] then Ok([])
    else
      match Sort(cmp, s[1..])
      case Err(e) => Err(e)
      case Ok(t) => Insert(cmp, s[0], t)
  }

  /** Inserting adds x and nothing else, and the result starts with x or with s's first element. */
  lemma {:induction false} InsertPermutes<T>(cmp: (T, T) -> Result<int>, x: T, s: seq<T>)
    ensures Insert(cmp, x, s).Ok? ==>
      var t := Insert(cmp, x, s).value;
      multiset(t) == multiset(s) + multiset{x} && (t[0] == x || (s != [] && t[0] == s[0]))
  {
    if s != [] && cmp(x, s[0]).Ok? && cmp(x, s[0]).value > 0 {
      InsertPermutes(cmp, x, s[1..]);
      assert s == [s[0]] + s[1..];
    }
  }

  /** Inserting into an ordered sequence keeps it ordered. */
  lemma {:induction false} InsertOrdered<T(!new)>(cmp: (T, T) -> Result<int>, x: T, s: seq<T>)
    requires Antisymmetric(cmp) && Ordered(cmp, s)
    ensures Insert(cmp, x, s).Ok? ==> Ordered(cmp, Insert(cmp, x, s).value)
  {
    if s != [] && cmp(x, s[0]).Ok? && cmp(x, s[0]).value > 0 {
      var c := cmp(x, s[0]).value;
      assert cmp(s[0], x).Ok? && cmp(s[0], x).value == -c;
      assert Ordered(cmp, s[1..]) by {
        forall i | 0 < i < |s[1..]| ensures s[1..][i - 1] == s[i] && s[1..][i] == s[i + 1] { }
      }
      InsertOrdered(cmp, x, s[1..]);
      InsertPermutes(cmp, x, s[1..]);
      if Insert(cmp, x, s[1..]).Ok? {
        var u := Insert(cmp, x, s[1..]).value;
        var t := [s[0]] + u;
        assert u[0] == x || (|s| > 1 && u[0] == s[1]);
        forall i | 0 < i < |t| ensures cmp(t[i - 1], t[i]).Ok? && cmp(t[i - 1], t[i]).value <= 0 {
          if i > 1 {
            assert t[i - 1] == u[i - 2] && t[i] == u[i - 1];
          }
        }
      }
    }
  }

  /** A sort that succeeds gives a permutation of its input, whatever the comparator. */
  lemma {:induction false} SortPermutes<T>(cmp: (T, T) -> Result<int>, s: seq<T>)
    ensures Sort(cmp, s).Ok? ==> multiset(Sort(cmp, s).value) == multiset(s)
  {
    if s != [] {
      SortPermutes(cmp, s[1..]);
      if Sort(cmp, s[1..]).Ok? {
        InsertPermutes(cmp, s[0], Sort(cmp, s[1..]).value);
        assert s == [s[0]] + s[1..];
      }
    }
  }

  /** A sort that succeeds gives an ordered permutation of its input. */
  lemma {:induction false} SortMeaning<T(!new)>(cmp: (T, T) -> Result<int>, s: seq<T>)
    requires Antisymmetric(cmp)
    ensures Sort(cmp, s).Ok? ==> multiset(Sort(cmp, s).value) == multiset(s) && Ordered(cmp, Sort(cmp, s).value)
  {
    SortPermutes(cmp, s);
    if s != [] {
      SortMeaning(cmp, s[1..]);
      if Sort(cmp, s[1..]).Ok? {
        InsertOrdered(cmp, s[0], Sort(cmp, s[1..]).value);
      }
    }
  }

  /** Two elements the comparator orders strictly come out in its order, whichever order they come in. */
  lemma SortTwo<T(!new)>(cmp: (T, T) -> Result<int>, a: T, b: T)
    requires Antisymmetric(cmp) && cmp(a, b).Ok? && cmp(a, b).value < 0
    ensures Sort(cmp, [b, a]) == Ok([a, b])
    ensures Sort(cmp, [a, b]) == Ok([a, b])
  {
    assert cmp(b, a).Ok? && cmp(b, a).value > 0;
    assert [b, a][1..] == [a] && [a, b][1..] == [b] && [a][1..] == [] && [b][1..] == [];
    assert Sort(cmp, [a]) == Ok([a]) && Sort(cmp, [b]) == Ok([b]);
    assert Insert(cmp, b, [a]) == Ok([a] + [b]);
    assert [a] + [b] == [a, b];
  }

  // ---------------------------------------------------------------- variation()

  /** What variation() needs of one of the card's prints: its set and its collector number. */
  datatype PrintKey<S> = PrintKey(printSet: S, collectorNumber: Option<string>)

  /** card().prints().stream().filter(p -> p.set == set).map(collectorNumber), in the card's print order. */
  function SameSetNumbers<S(==)>(prints: seq<PrintKey<S>>, printSet: S): (r: seq<Option<string>>)
    ensures |r| <= |prints|
    ensures forall x :: x in r <==> exists i :: 0 <= i < |prints| && prints[i].printSet == printSet && prints[i].collectorNumber == x
  {
    if prints == [] then []
    else
      var rest := SameSetNumbers(prints[1..], printSet);
      assert forall i :: 0 < i < |prints| ==> prints[1..][i - 1] == prints[i];
      if prints[0].printSet == printSet then [prints[0].collectorNumber] + rest else rest
  }

  /** The index of the first x in s. */
  function FirstIndex(s: seq<Option<string>>, x: Option<string>): (i: nat)
    requires x in s
    ensures i < |s| && s[i] == x && forall j :: 0 <= j < i ==> s[j] != x
  {
    if s[0] == x then 0 else 1 + FirstIndex(s[1..], x)
  }

  /** The 1-based position of cn's first occurrence in the sorted numbers, or 1 when it is not there. */
  function Rank(sorted: seq<Option<string>>, cn: Option<string>): nat
  {
    if cn in sorted then FirstIndex(sorted, cn) + 1 else 1
  }

  /** The variation of a print of set `set` numbered cn, given its card's prints; Err when the sort throws. */
  function VariationOf<S(==)>(prints: seq<PrintKey<S>>, printSet: S, cn: Option<string>): Result<int>
  {
    match Sort(CompareNumbers, SameSetNumbers(prints, printSet))
    case Err(e) => Err(e)
    case Ok(sorted) => Ok(Rank(sorted, cn))
  }

  /**
   * The variation is at least 1 and at most the number of same-set prints
   * (or 1 when there are none); when the print is among them it is the
   * 1-based position of the first print with its number in the sorted
   * rearrangement of the same-set numbers, so every print ranked before it
   * has another number; otherwise it is 1.
   */
  lemma VariationMeaning<S>(prints: seq<PrintKey<S>>, printSet: S, cn: Option<string>)
    ensures VariationOf(prints, printSet, cn).Ok? ==>
      multiset(Sort(CompareNumbers, SameSetNumbers(prints, printSet)).value) == multiset(SameSetNumbers(prints, printSet))
    ensures VariationOf(prints, printSet, cn).Ok? ==>
      var v := VariationOf(prints, printSet, cn).value;
      var sorted := Sort(CompareNumbers, SameSetNumbers(prints, printSet)).value;
      && 1 <= v && (v <= |SameSetNumbers(prints, printSet)| || v == 1)
      && (PrintKey(printSet, cn) in prints ==> sorted[v - 1] == cn && forall j :: 0 <= j < v - 1 ==> sorted[j] != cn)
      && (PrintKey(printSet, cn) !in prints ==> v == 1)
  {
    var ns := SameSetNumbers(prints, printSet);
    SortPermutes(CompareNumbers, ns);
    if Sort(CompareNumbers, ns).Ok? {
      VariationRank(prints, printSet, cn, Sort(CompareNumbers, ns).value);
    }
  }

  /** The numbers variation() ranks against are in collector-number order whenever the sort succeeds. */
  lemma VariationSorted<S>(prints: seq<PrintKey<S>>, printSet: S, cn: Option<string>)
    ensures VariationOf(prints, printSet, cn).Ok? ==> Ordered(CompareNumbers, Sort(CompareNumbers, SameSetNumbers(prints, printSet)).value)
  {
    CompareNumbersIsAntisymmetric();
    SortMeaning(CompareNumbers, SameSetNumbers(prints, printSet));
  }

  /** The rank in a rearrangement of the same-set numbers, stated for the print's own number. */
  lemma VariationRank<S>(prints: seq<PrintKey<S>>, printSet: S, cn: Option<string>, sorted: seq<Option<string>>)
    requires multiset(sorted) == multiset(SameSetNumbers(prints, printSet))
    ensures var v := Rank(sorted, cn);
      && 1 <= v && (v <= |SameSetNumbers(prints, printSet)| || v == 1)
      && (PrintKey(printSet, cn) in prints ==> sorted[v - 1] == cn && forall j :: 0 <= j < v - 1 ==> sorted[j] != cn)
      && (PrintKey(printSet, cn) !in prints ==> v == 1)
  {
    RankMeaning(sorted, SameSetNumbers(prints, printSet), cn);
    SameSetHolds(prints, printSet, cn);
  }

  /** A number is among the same-set numbers exactly when a print of that set carries it. */
  lemma SameSetHolds<S>(prints: seq<PrintKey<S>>, printSet: S, cn: Option<string>)
    ensures cn in SameSetNumbers(prints, printSet) <==> PrintKey(printSet, cn) in prints
  {
    if PrintKey(printSet, cn) in prints {
      var i :| 0 <= i < |prints| && prints[i] == PrintKey(printSet, cn);
      assert prints[i].printSet == printSet && prints[i].collectorNumber == cn;
    }
  }

  /** In any rearrangement of the numbers, the rank of cn is where cn first occurs, or 1 when it is absent. */
  lemma RankMeaning(sorted: seq<Option<string>>, ns: seq<Option<string>>, cn: Option<string>)
    requires multiset(sorted) == multiset(ns)
    ensures 1 <= Rank(sorted, cn) && (Rank(sorted, cn) <= |ns| || Rank(sorted, cn) == 1)
    ensures cn in ns ==> sorted[Rank(sorted, cn) - 1] == cn && forall j :: 0 <= j < Rank(sorted, cn) - 1 ==> sorted[j] != cn
    ensures cn !in ns ==> Rank(sorted, cn) == 1
  {
    assert |sorted| == |ns| by {
      assert |multiset(sorted)| == |multiset(ns)|;
    }
    assert cn in sorted <==> cn in ns by {
      assert cn in multiset(sorted) <==> cn in multiset(ns);
    }
  }

  // ---------------------------------------------------------------- the printed-face registry

  /**
   * The printed faces of a print: `faces` and `mainFaces` in insertion order
   * (LinkedHashSets), and `dict`, facesDict, listing each face's printed faces
   * in insertion order.  P is the printed face as the registry compares it.
   */
  datatype FaceTable<F, P> = FaceTable(faces: seq<P>, mainFaces: seq<P>, dict: map<F, seq<P>>)

  predicate NoDuplicates<P(==)>(s: seq<P>)
  {
    forall i, j :: 0 <= i < j < |s| ==> s[i] != s[j]
  }

  /** What addFace keeps: duplicate-free lists, main faces among the faces, and every listed printed face among the faces. */
  predicate TableInv<F(==), P(==)>(t: FaceTable<F, P>)
  {
    && NoDuplicates(t.faces) && NoDuplicates(t.mainFaces)
    && (forall p :: p in t.mainFaces ==> p in t.faces)
    && (forall f, p :: f in t.dict && p in t.dict[f] ==> p in t.faces)
    && (forall f :: f in t.dict ==> NoDuplicates(t.dict[f]))
  }

  /** addFace already knows pf under face. */
  predicate Registered<F(==), P(==)>(t: FaceTable<F, P>, face: F, pf: P)
  {
    face in t.dict && pf in t.dict[face]
  }

  /** Util.addElem into a LinkedHashSet: appended unless already present. */
  function AddElem<P(==)>(s: seq<P>, p: P): seq<P>
  {
    if p in s then s else s + [p]
  }

  /**
   * addFace's effect: nothing when pf is already listed under face; otherwise
   * pf joins `faces`, joins `mainFaces` when the card lists face as a main
   * face, and is listed under face.
   */
  function Added<F(==), P(==)>(t: FaceTable<F, P>, face: F, pf: P, main: bool): FaceTable<F, P>
  {
    if Registered(t, face, pf) then t
    else
      FaceTable(AddElem(t.faces, pf), if main then AddElem(t.mainFaces, pf) else t.mainFaces,
                t.dict[face := (if face in t.dict then t.dict[face] else []) + [pf]])
  }

  lemma AddElemKeepsNoDuplicates<P>(s: seq<P>, p: P)
    requires NoDuplicates(s)
    ensures NoDuplicates(AddElem(s, p)) && (forall q :: q in AddElem(s, p) <==> q in s || q == p)
  {
  }

  /** addFace keeps the registry's invariant. */
  lemma AddedKeepsInv<F, P>(t: FaceTable<F, P>, face: F, pf: P, main: bool)
    requires TableInv(t)
    ensures TableInv(Added(t, face, pf, main))
  {
    if !Registered(t, face, pf) {
      AddElemKeepsNoDuplicates(t.faces, pf);
      AddElemKeepsNoDuplicates(t.mainFaces, pf);
    }
  }

  /**
   * After addFace, pf is listed under face and is among the faces; the faces
   * gained pf and nothing else; the main faces gained pf exactly when the
   * face is main and pf was new; no other face's list changed.
   */
  lemma AddedMeaning<F, P>(t: FaceTable<F, P>, face: F, pf: P, main: bool)
    requires TableInv(t)
    ensures var u := Added(t, face, pf, main);
      && Registered(u, face, pf) && pf in u.faces
      && (forall q :: q in u.faces <==> q in t.faces || q == pf)
      && (forall q :: q in u.mainFaces <==> q in t.mainFaces || (q == pf && main && !Registered(t, face, pf)))
      && (forall f :: f != face ==> (f in u.dict <==> f in t.dict) && (f in t.dict ==> u.dict[f] == t.dict[f]))
  {
  }

  /** A second addFace of the same printed face under the same face changes nothing, whatever the card says is main. */
  lemma AddedIdempotent<F, P>(t: FaceTable<F, P>, face: F, pf: P, main: bool, main2: bool)
    ensures Added(Added(t, face, pf, main), face, pf, main2) == Added(t, face, pf, main)
  {
    var u := Added(t, face, pf, main);
    assert Registered(u, face, pf);
  }

  /**
   * A Java object as the registry sees it when its class does not override
   * equals: two objects are the same only when they are the same
   * allocation, whatever their fields hold.
   */
  datatype Obj<V> = Obj(allocation: nat, fields: V)

  /** Every object in the registry was allocated before `next`. */
  predicate AllocatedBefore<F(==), V(==)>(t: FaceTable<F, Obj<V>>, next: nat)
  {
    (forall p :: p in t.faces ==> p.allocation < next) && (forall f, p :: f in t.dict && p in t.dict[f] ==> p.allocation < next)
  }

  /**
   * addFace as written: the printed face is a new object, and the printed
   * face class has no equals, so the lookup never finds it and every call
   * appends.
   */
  lemma AddedAsWrittenNeverFinds<F, V>(t: FaceTable<F, Obj<V>>, next: nat, face: F, fields: V, main: bool)
    requires AllocatedBefore(t, next)
    ensures !Registered(t, face, Obj(next, fields))
    ensures Added(t, face, Obj(next, fields), main).faces == t.faces + [Obj(next, fields)]
    ensures AllocatedBefore(Added(t, face, Obj(next, fields), main), next + 1)
  {
  }

  /** As written, adding the same printed face twice lists it twice; with value equality it is listed once. */
  lemma AddedAsWrittenTwice<F, V>(face: F, fields: V)
    ensures
      var t0: FaceTable<F, Obj<V>> := FaceTable([], [], map[]);
      var t2 := Added(Added(t0, face, Obj(0, fields), false), face, Obj(1, fields), false);
      |t2.faces| == 2 && t2.faces[0].fields == t2.faces[1].fields
    ensures
      var t0: FaceTable<F, V> := FaceTable([], [], map[]);
      |Added(Added(t0, face, fields, false), face, fields, false).faces| == 1
  {
    var t0: FaceTable<F, Obj<V>> := FaceTable([], [], map[]);
    AddedAsWrittenNeverFinds(t0, 0, face, fields, false);
    AddedAsWrittenNeverFinds(Added(t0, face, Obj(0, fields), false), 1, face, fields, false);
    var v0: FaceTable<F, V> := FaceTable([], [], map[]);
    AddedIdempotent(v0, face, fields, false, false);
  }

  /** A printed face by value: the face, which side it is, its frame and its records. */
  datatype PrintFace<F, R> = PrintFace(face: F, back: bool, frame: R, cardJson: ApiCard.Card, faceJson: Option<ApiCard.Face>)

  /**
   * ScryfallPrint: a printing of a card in a set, with its printed faces and
   * its memoised variation (-1 until computed).  S identifies sets the way
   * `p.set == set` does; F is the face type, R the frame type.
   */
  class ScryfallPrint<S(==), F(==), R(==)> {
    const printSet: S
    const cardJson: ApiCard.Card
    var faces: seq<PrintFace<F, R>>
    var mainFaces: seq<PrintFace<F, R>>
    var facesDict: map<F, seq<PrintFace<F, R>>>
    var variation: int

    function Table(): FaceTable<F, PrintFace<F, R>>
      reads this
    {
      FaceTable(faces, mainFaces, facesDict)
    }

    ghost predicate Valid()
      reads this
    {
      TableInv(Table()) && (variation < 0 ==> variation == -1) && variation != 0
    }

    /** A new print has no printed faces and no variation yet. */
    constructor(printSet: S, cardJson: ApiCard.Card)
      ensures this.printSet == printSet && this.cardJson == cardJson
      ensures Table() == FaceTable([], [], map[]) && variation == -1
      ensures Valid()
    {
      this.printSet := printSet;
      this.cardJson := cardJson;
      faces, mainFaces, facesDict := [], [], map[];
      variation := -1;
    }

    function CollectorNumber(): Option<string>
    {
      cardJson.collectorNumber
    }

    /**
     * addFace: `main` is whether the card lists `face` among its main faces.
     * The printed face returned is the one registered, equal to the one built
     * from the arguments.
     */
    method AddFace(face: F, back: bool, frame: R, jsonCard: ApiCard.Card, faceJson: Option<ApiCard.Face>, main: bool)
      returns (r: PrintFace<F, R>)
      requires Valid()
      modifies this
      ensures Valid()
      ensures r == PrintFace(face, back, frame, jsonCard, faceJson)
      ensures Table() == Added(old(Table()), face, r, main) && variation == old(variation)
    {
      var pf := PrintFace(face, back, frame, jsonCard, faceJson);
      AddedKeepsInv(Table(), face, pf, main);
      if face in facesDict && pf in facesDict[face] {
        return pf;
      }
      faces := AddElem(faces, pf);
      if main {
        mainFaces := AddElem(mainFaces, pf);
      }
      facesDict := facesDict[face := (if face in facesDict then facesDict[face] else []) + [pf]];
      r := pf;
    }

    /** faces(face): facesDict.get(face).keySet(), which throws for a face never added. */
    function FacesOf(face: F): (r: Result<seq<PrintFace<F, R>>>)
      reads this
      ensures r.Err? <==> face !in facesDict
      ensures r.Ok? ==> forall p :: p in r.value ==> Registered(Table(), face, p)
      ensures r.Ok? ==> forall p :: p in facesDict[face] ==> p in r.value
    {
      if face in facesDict then Ok(facesDict[face]) else Err(NullPointer)
    }

    /**
     * variation(): computed once from the card's prints, then returned
     * unchanged.  A sort that throws leaves it uncomputed.
     */
    method Variation(prints: seq<PrintKey<S>>) returns (r: Result<int>)
      requires Valid()
      modifies this
      ensures Valid() && Table() == old(Table())
      ensures old(variation) > 0 ==> r == Ok(old(variation)) && variation == old(variation)
      ensures old(variation) < 0 ==> r == VariationOf(prints, printSet, CollectorNumber())
      ensures r.Ok? ==> variation == r.value && r.value >= 1
      ensures r.Err? ==> variation == old(variation)
    {
      ghost var t0 := Table();
      assert TableInv(t0);
      if variation < 0 {
        var sorted := Sort(CompareNumbers, SameSetNumbers(prints, printSet));
        if sorted.Err? {
          return Err(sorted.error);
        }
        var cns := sorted.value;
        var cn := CollectorNumber();
        var i := 1;
        while i <= |cns|
          invariant 1 <= i <= |cns| + 1
          invariant variation == -1
          invariant forall j :: 0 <= j < i - 1 ==> cns[j] != cn
        {
          if cns[i - 1] == cn {
            variation := i;
            break;
          }
          i := i + 1;
        }
        if variation < 0 {
          variation := 1;
        }
        assert variation == Rank(cns, cn);
      }
      assert Table() == t0;
      r := Ok(variation);
    }
  }

  /** ScryfallPrint.equals: the same record id. */
  predicate PrintEquals<S(==), F(==), R(==)>(a: ScryfallPrint<S, F, R>, b: ScryfallPrint<S, F, R>)
  {
    a.cardJson.id == b.cardJson.id
  }

  /** equals is an equivalence, and hashCode (the id's hash, any function of it) agrees with it. */
  lemma PrintEqualsIsEquivalence<S, F, R>(a: ScryfallPrint<S, F, R>, b: ScryfallPrint<S, F, R>, c: ScryfallPrint<S, F, R>, idHash: ApiCard.Uuid -> int)
    ensures PrintEquals(a, a)
    ensures PrintEquals(a, b) ==> PrintEquals(b, a)
    ensures PrintEquals(a, b) && PrintEquals(b, c) ==> PrintEquals(a, c)
    ensures PrintEquals(a, b) ==> idHash(a.cardJson.id) == idHash(b.cardJson.id)
  {
  }
}
