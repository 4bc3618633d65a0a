/**
Outputs of a tofu workspace: decoding, listing them in name order, and the two maps made of
them, the connection details and the outputs in the resource's status.
*/
module Outputs {
  import opened Common
  import opened Sorting

  // ---- Values and types ---------------------------------------------------------------

  /** One entry of `tofu output -json`. */
  datatype RawOutput = RawOutput(sensitive: bool, val: Json, typ: Json)

  datatype OutputType = UnknownType | StringType | NumberType | BoolType | TupleType | ObjectType

  datatype Output = Output(name: string, sensitive: bool, typ: OutputType, val: Json)

  function TypeNamed(t: string): OutputType {
    match t
    case "string" => StringType
    case "number" => NumberType
    case "bool" => BoolType
    case "tuple" => TupleType
    case "object" => ObjectType
    case _ => UnknownType
  }

  /** The type is given by a string, or by the string at the head of an array. */
  function TypeOf(typ: Json): OutputType {
    if typ.Str? then TypeNamed(typ.s)
    else if typ.Arr? && |typ.items| > 0 && typ.items[0].Str? then TypeNamed(typ.items[0].s)
    else UnknownType
  }

  function Decode(name: string, raw: RawOutput): Output {
    Output(name, raw.sensitive, TypeOf(raw.typ), raw.val)
  }

  function StringValue(o: Output): string {
    if o.val.Str? then o.val.s else ""
  }

  /** The text that a type is named by, wherever it stands. */
  predicate Names(typ: Json, t: string) {
    typ == Str(t) || (typ.Arr? && |typ.items| > 0 && typ.items[0] == Str(t))
  }

  lemma TypeOfExactly(typ: Json)
    ensures TypeOf(typ) == StringType <==> Names(typ, "string")
    ensures TypeOf(typ) == NumberType <==> Names(typ, "number")
    ensures TypeOf(typ) == BoolType <==> Names(typ, "bool")
    ensures TypeOf(typ) == TupleType <==> Names(typ, "tuple")
    ensures TypeOf(typ) == ObjectType <==> Names(typ, "object")
  {
    assert "string" != "number" && "string" != "object" && "number" != "object" by {
      assert "string"[0] == 's' && "number"[0] == 'n' && "object"[0] == 'o';
    }
    assert |"bool"| == 4 && |"tuple"| == 5;
  }

  // ---- Order of names -----------------------------------------------------------------

  predicate Less(a: string, b: string) {
    b != "" && (a == "" || a[0] < b[0] || (a[0] == b[0] && Less(a[1..], b[1..])))
  }

  lemma {:induction false} LessTransitive(a: string, b: string, c: string)
    requires Less(a, b) && Less(b, c)
    ensures Less(a, c)
  {
    if a != "" && a[0] == b[0] && b[0] == c[0] {
      LessTransitive(a[1..], b[1..], c[1..]);
    }
  }

  lemma {:induction false} LessTotal(a: string, b: string)
    ensures Less(a, b) || a == b || Less(b, a)
    ensures !(Less(a, b) && Less(b, a))
    ensures Less(a, b) ==> a != b
  {
    if a != "" && b != "" && a[0] == b[0] {
      LessTotal(a[1..], b[1..]);
      assert a == [a[0]] + a[1..] && b == [b[0]] + b[1..];
    }
  }

  lemma SameHead(a: string, b: string, k: nat)
    requires 0 < k <= |a| && k <= |b| && a[..k] == b[..k]
    ensures a[0] == b[0]
  {
    assert a[..k][0] == a[0] && b[..k][0] == b[0];
  }

  /** Names are ordered by their first difference, a beginning before what continues it. */
  lemma {:induction false} LessExactly(a: string, b: string)
    ensures Less(a, b) <==>
      exists k: nat :: k <= |a| && k < |b| && a[..k] == b[..k] && (k == |a| || a[k] < b[k])
  {
    if a != "" && b != "" && a[0] == b[0] {
      LessExactly(a[1..], b[1..]);
      if Less(a, b) {
        var k: nat :| k <= |a[1..]| && k < |b[1..]| && a[1..][..k] == b[1..][..k]
          && (k == |a[1..]| || a[1..][k] < b[1..][k]);
        assert a[..k + 1] == [a[0]] + a[1..][..k] && b[..k + 1] == [b[0]] + b[1..][..k];
        assert k + 1 == |a| || a[k + 1] < b[k + 1];
      }
      if k: nat :| k <= |a| && k < |b| && a[..k] == b[..k] && (k == |a| || a[k] < b[k]) {
        assert k > 0;
        assert a[1..][..k - 1] == a[..k][1..] && b[1..][..k - 1] == b[..k][1..];
        assert k - 1 == |a[1..]| || a[1..][k - 1] < b[1..][k - 1];
      }
    } else if Less(a, b) {
      assert a[..0] == b[..0] && (0 == |a| || a[0] < b[0]);
    } else {
      forall k: nat | k <= |a| && k < |b| && a[..k] == b[..k]
        ensures !(k == |a| || a[k] < b[k])
      {
        if k > 0 {
          SameHead(a, b, k);
        }
      }
    }
  }

  // ---- Listings -----------------------------------------------------------------------

  predicate Increasing(o: seq<Output>) {
    forall i, j :: 0 <= i < j < |o| ==> Less(o[i].name, o[j].name)
  }

  /** Each entry of the map appears, decoded, and nothing else does. */
  predicate Covers(o: seq<Output>, m: map<string, RawOutput>) {
    && (forall i :: 0 <= i < |o| ==> o[i].name in m && o[i] == Decode(o[i].name, m[o[i].name]))
    && (forall name :: name in m ==> exists i :: 0 <= i < |o| && o[i].name == name)
  }

  predicate Distinct(o: seq<Output>) {
    forall i, j :: 0 <= i < j < |o| ==> o[i].name != o[j].name
  }

  predicate IsListing(o: seq<Output>, m: map<string, RawOutput>) {
    Increasing(o) && Covers(o, m)
  }

  lemma IncreasingDistinct(o: seq<Output>)
    requires Increasing(o)
    ensures Distinct(o)
  {
    forall i, j | 0 <= i < j < |o|
      ensures o[i].name != o[j].name
    {
      LessTotal(o[i].name, o[j].name);
    }
  }

  /** The name at place i cannot occur later, so the least name of a listing comes first. */
  lemma FirstIsLeast(o: seq<Output>, m: map<string, RawOutput>, name: string)
    requires IsListing(o, m) && name in m
    ensures |o| > 0 && (name == o[0].name || Less(o[0].name, name))
  {
    var i :| 0 <= i < |o| && o[i].name == name;
  }

  lemma TailListing(o: seq<Output>, m: map<string, RawOutput>)
    requires IsListing(o, m) && |o| > 0
    ensures IsListing(o[1..], m - {o[0].name})
  {
    IncreasingDistinct(o);
    var rest := m - {o[0].name};
    forall name | name in rest
      ensures exists i :: 0 <= i < |o[1..]| && o[1..][i].name == name
    {
      var i :| 0 <= i < |o| && o[i].name == name;
      assert o[1..][i - 1].name == name;
    }
  }

  /** A map of outputs has one listing only, so the order of iteration cannot show. */
  lemma {:induction false} ListingUnique(o: seq<Output>, q: seq<Output>, m: map<string, RawOutput>)
    requires IsListing(o, m) && IsListing(q, m)
    ensures o == q
    decreases |o|
  {
    if o == [] {
      assert m == map[];
      assert forall x :: x in q ==> x.name in m;
    } else {
      assert o[0].name in m;
      FirstIsLeast(q, m, o[0].name);
      FirstIsLeast(o, m, q[0].name);
      LessTotal(o[0].name, q[0].name);
      TailListing(o, m);
      TailListing(q, m);
      ListingUnique(o[1..], q[1..], m - {o[0].name});
      assert o == [o[0]] + o[1..] && q == [q[0]] + q[1..];
    }
  }

  /** A listing has one entry for each output: none is lost and none is doubled. */
  lemma {:induction false} ListingLength(o: seq<Output>, m: map<string, RawOutput>)
    requires IsListing(o, m)
    ensures |o| == |m|
    decreases |o|
  {
    if o == [] {
      assert m == map[];
    } else {
      TailListing(o, m);
      ListingLength(o[1..], m - {o[0].name});
      assert (m - {o[0].name}).Keys == m.Keys - {o[0].name};
    }
  }

  // ---- Sorting and listing ------------------------------------------------------------

  /** The comparison of the listing: by name. */
  function NameLess(): (Output, Output) -> bool {
    (x: Output, y: Output) => Less(x.name, y.name)
  }

  lemma NameLessOrders()
    ensures StrictWeakOrder(NameLess())
  {
    forall x: Output, y: Output
      ensures NameLess()(x, y) ==> !NameLess()(y, x)
    {
      LessTotal(x.name, y.name);
    }
    forall x: Output, y: Output, z: Output
      ensures NameLess()(x, y) ==> NameLess()(x, z) || NameLess()(z, y)
    {
      if Less(x.name, y.name) {
        LessTotal(x.name, z.name);
        if Less(z.name, x.name) {
          LessTransitive(z.name, x.name, y.name);
        }
      }
    }
  }

  lemma MultisetMembers(o: seq<Output>, q: seq<Output>)
    requires multiset(o) == multiset(q)
    ensures forall x :: x in o <==> x in q
  {
    forall x
      ensures x in o <==> x in q
    {
      assert x in o <==> multiset(o)[x] > 0;
      assert x in q <==> multiset(q)[x] > 0;
    }
  }

  lemma DistinctMultiplicity(o: seq<Output>, i: nat, j: nat)
    requires i < j < |o| && o[i] == o[j]
    ensures multiset(o)[o[i]] >= 2
  {
    assert o == o[..i + 1] + o[i + 1..];
    assert o[i] in o[..i + 1] && o[j] in o[i + 1..] by {
      assert o[..i + 1][i] == o[i] && o[i + 1..][j - i - 1] == o[j];
    }
  }

  lemma {:induction false} DistinctOnce(o: seq<Output>, x: Output)
    requires Distinct(o)
    ensures multiset(o)[x] <= 1
  {
    if o != [] {
      var n := |o| - 1;
      assert o == o[..n] + [o[n]];
      DistinctOnce(o[..n], x);
      if x == o[n] {
        assert x !in o[..n];
      }
    }
  }

  /** Sorting a list of distinct names that covers the map makes it the map's listing. */
  lemma SortedCoverIsListing(o: seq<Output>, q: seq<Output>, m: map<string, RawOutput>)
    requires Distinct(o) && Covers(o, m)
    requires Sorted(q, NameLess()) && multiset(q) == multiset(o)
    ensures IsListing(q, m)
  {
    MultisetMembers(q, o);
    assert Covers(q, m) by {
      forall i | 0 <= i < |q|
        ensures q[i].name in m && q[i] == Decode(q[i].name, m[q[i].name])
      {
        assert q[i] in o;
      }
      forall name | name in m
        ensures exists i :: 0 <= i < |q| && q[i].name == name
      {
        var k :| 0 <= k < |o| && o[k].name == name;
        assert o[k] in q;
      }
    }
    forall i, j | 0 <= i < j < |q|
      ensures Less(q[i].name, q[j].name)
    {
      LessTotal(q[i].name, q[j].name);
      assert !NameLess()(q[j], q[i]);
      if q[i].name == q[j].name {
        assert q[i] == q[j];
        DistinctMultiplicity(q, i, j);
        DistinctOnce(o, q[i]);
      }
    }
  }

  /**
  Decode the map in whatever order iteration happens to give, then sort by name. The result
  is the listing of the map, and by ListingUnique there is only one.
  */
  method ListOutputs(m: map<string, RawOutput>) returns (o: seq<Output>)
    ensures IsListing(o, m)
  {
    o := [];
    var rest := m.Keys;
    while rest != {}
      invariant rest <= m.Keys
      invariant Distinct(o) && Covers(o, map name | name in m && name !in rest :: m[name])
      decreases |rest|
    {
      var name :| name in rest;
      var output := m[name];
      var t := "unknown";
      if output.typ.Str? {
        t := output.typ.s;
      }
      if output.typ.Arr? && |output.typ.items| > 0 {
        if output.typ.items[0].Str? {
          t := output.typ.items[0].s;
        }
      }
      ghost var before, done := o, map name | name in m && name !in rest :: m[name];
      o := o + [Output(name, output.sensitive, TypeNamed(t), output.val)];
      rest := rest - {name};
      CoverOneMore(before, done, name, output, o[|before|]);
      assert (map name | name in m && name !in rest :: m[name]) == done[name := output];
    }
    assert (map name | name in m && name !in rest :: m[name]) == m;
    var a := new Output[|o|](i requires 0 <= i < |o| => o[i]);
    assert a[..] == o;
    NameLessOrders();
    SortSlice(a, NameLess());
    SortedCoverIsListing(o, a[..], m);
    o := a[..];
  }

  lemma CoverOneMore(o: seq<Output>, m: map<string, RawOutput>, name: string, raw: RawOutput, entry: Output)
    requires Distinct(o) && Covers(o, m) && name !in m && entry == Decode(name, raw)
    ensures Distinct(o + [entry]) && Covers(o + [entry], m[name := raw])
  {
    var q, m' := o + [entry], m[name := raw];
    forall n | n in m'
      ensures exists i :: 0 <= i < |q| && q[i].name == n
    {
      if n == name {
        assert q[|o|].name == n;
      } else {
        var i :| 0 <= i < |o| && o[i].name == n;
        assert q[i].name == n;
      }
    }
  }

  // ---- Connection details and status --------------------------------------------------

  /** json.Marshal of a decoded value. */
  type Marshaller = Json -> Option<Bytes>

  /** The loop of op2cd. */
  method ConnectionDetails(o: seq<Output>, marshal: Marshaller) returns (cd: map<string, Bytes>)
    ensures cd == Details(o, marshal)
  {
    cd := map[];
    var i := 0;
    while i < |o|
      invariant 0 <= i <= |o|
      invariant cd == Details(o[..i], marshal)
    {
      var op := o[i];
      assert o[..i + 1][..i] == o[..i];
      if op.typ == StringType {
        cd := cd[op.name := StringValue(op)];
      } else {
        var j := marshal(op.val);
        if j.Some? {
          cd := cd[op.name := j.value];
        }
      }
      i := i + 1;
    }
    assert o[..i] == o;
  }

  /** The loop of generateWorkspaceObservation. */
  method StatusOutputs(o: seq<Output>, marshal: Marshaller) returns (outputs: map<string, Bytes>)
    ensures outputs == Status(o, marshal)
  {
    outputs := map[];
    var i := 0;
    while i < |o|
      invariant 0 <= i <= |o|
      invariant outputs == Status(o[..i], marshal)
    {
      var op := o[i];
      assert o[..i + 1][..i] == o[..i];
      if !op.sensitive {
        var j := marshal(op.val);
        if j.Some? {
          outputs := outputs[op.name := j.value];
        }
      }
      i := i + 1;
    }
    assert o[..i] == o;
  }

  function Details(o: seq<Output>, marshal: Marshaller): map<string, Bytes> {
    if o == [] then map[]
    else
      var before, op := Details(o[..|o| - 1], marshal), o[|o| - 1];
      if op.typ == StringType then before[op.name := StringValue(op)]
      else if marshal(op.val).Some? then before[op.name := marshal(op.val).value]
      else before
  }

  function Status(o: seq<Output>, marshal: Marshaller): map<string, Bytes> {
    if o == [] then map[]
    else
      var before, op := Status(o[..|o| - 1], marshal), o[|o| - 1];
      if !op.sensitive && marshal(op.val).Some? then before[op.name := marshal(op.val).value] else before
  }

  /** What the connection details say about one output. */
  function DetailOf(op: Output, marshal: Marshaller): Option<Bytes> {
    if op.typ == StringType then Some(StringValue(op)) else marshal(op.val)
  }

  lemma {:induction false} DetailsMeaning(o: seq<Output>, marshal: Marshaller)
    requires Distinct(o)
    ensures forall i :: 0 <= i < |o| ==>
      (o[i].name in Details(o, marshal) <==> DetailOf(o[i], marshal).Some?)
      && (o[i].name in Details(o, marshal) ==> Some(Details(o, marshal)[o[i].name]) == DetailOf(o[i], marshal))
    ensures forall name :: name in Details(o, marshal) ==> exists i :: 0 <= i < |o| && o[i].name == name
  {
    if o != [] {
      DetailsMeaning(o[..|o| - 1], marshal);
      var before := o[..|o| - 1];
      assert forall i :: 0 <= i < |before| ==> before[i] == o[i];
      assert o[|o| - 1].name !in Details(before, marshal);
    }
  }

  lemma {:induction false} StatusMeaning(o: seq<Output>, marshal: Marshaller)
    requires Distinct(o)
    ensures forall i :: 0 <= i < |o| ==>
      (o[i].name in Status(o, marshal) <==> !o[i].sensitive && marshal(o[i].val).Some?)
      && (o[i].name in Status(o, marshal) ==> Some(Status(o, marshal)[o[i].name]) == marshal(o[i].val))
    ensures forall name :: name in Status(o, marshal) ==> exists i :: 0 <= i < |o| && o[i].name == name
  {
    if o != [] {
      StatusMeaning(o[..|o| - 1], marshal);
      var before := o[..|o| - 1];
      assert forall i :: 0 <= i < |before| ==> before[i] == o[i];
      assert o[|o| - 1].name !in Status(before, marshal);
    }
  }

  /** The map a list of details is, in terms of the workspace's outputs alone. */
  function DetailsMap(m: map<string, RawOutput>, marshal: Marshaller): map<string, Bytes> {
    map name | name in m && DetailOf(Decode(name, m[name]), marshal).Some? ::
      DetailOf(Decode(name, m[name]), marshal).value
  }

  function StatusMap(m: map<string, RawOutput>, marshal: Marshaller): map<string, Bytes> {
    map name | name in m && !m[name].sensitive && marshal(m[name].val).Some? :: marshal(m[name].val).value
  }

  lemma DetailsOfListing(o: seq<Output>, m: map<string, RawOutput>, marshal: Marshaller)
    requires IsListing(o, m)
    ensures Details(o, marshal) == DetailsMap(m, marshal)
  {
    IncreasingDistinct(o);
    DetailsMeaning(o, marshal);
    forall i | 0 <= i < |o|
      ensures DetailOf(o[i], marshal) == DetailOf(Decode(o[i].name, m[o[i].name]), marshal)
    {
    }
    assert Details(o, marshal).Keys == DetailsMap(m, marshal).Keys;
  }

  lemma StatusOfListing(o: seq<Output>, m: map<string, RawOutput>, marshal: Marshaller)
    requires IsListing(o, m)
    ensures Status(o, marshal) == StatusMap(m, marshal)
  {
    IncreasingDistinct(o);
    StatusMeaning(o, marshal);
    forall i | 0 <= i < |o|
      ensures o[i].val == m[o[i].name].val && o[i].sensitive == m[o[i].name].sensitive
    {
    }
    assert Status(o, marshal).Keys == StatusMap(m, marshal).Keys;
  }

  /** Both maps depend only on the workspace's outputs, not on how they were listed. */
  lemma MapsOfListing(o: seq<Output>, m: map<string, RawOutput>, marshal: Marshaller)
    requires IsListing(o, m)
    ensures Details(o, marshal) == DetailsMap(m, marshal)
    ensures Status(o, marshal) == StatusMap(m, marshal)
  {
    DetailsOfListing(o, m, marshal);
    StatusOfListing(o, m, marshal);
  }

  /**
  The connection details hold an output's own text if its type is named "string", and else its
  JSON, if it has one; the status holds the JSON of the non-sensitive ones. With values that
  can all be marshalled these are all the outputs, and all the non-sensitive ones.
  */
  lemma DetailsAndStatus(o: seq<Output>, m: map<string, RawOutput>, marshal: Marshaller)
    requires IsListing(o, m)
    ensures Details(o, marshal).Keys
         == set name | name in m && (Names(m[name].typ, "string") || marshal(m[name].val).Some?)
    ensures Status(o, marshal).Keys == set name | name in m && !m[name].sensitive && marshal(m[name].val).Some?
    ensures forall name :: name in Status(o, marshal) ==> Some(Status(o, marshal)[name]) == marshal(m[name].val)
    ensures forall name :: name in Details(o, marshal) ==>
      if Names(m[name].typ, "string")
      then Details(o, marshal)[name] == (if m[name].val.Str? then m[name].val.s else "")
      else Some(Details(o, marshal)[name]) == marshal(m[name].val)
    ensures (forall name :: name in m ==> marshal(m[name].val).Some?) ==>
      && Details(o, marshal).Keys == m.Keys
      && Status(o, marshal).Keys == set name | name in m && !m[name].sensitive
  {
    hide Details, Status, TypeOf, Names;
    MapsOfListing(o, m, marshal);
    forall name | name in m
      ensures Decode(name, m[name]).typ == StringType <==> Names(m[name].typ, "string")
    {
      TypeOfExactly(m[name].typ);
    }
  }
}
