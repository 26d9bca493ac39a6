/** The static metadata the core reads: protobuf reflection descriptors
    (Google.Protobuf.Reflection), the `google.api.HttpRule` annotation and the
    parsed route template of an endpoint. All of it is immutable data. */
module Descriptors {

  /** The type tag of a protobuf field, `Google.Protobuf.Reflection.FieldType`. */
  datatype FieldType =
    | Double | Float | Int64 | UInt64 | Int32 | Fixed64 | Fixed32 | Bool | String
    | Group | Message | Bytes | UInt32 | SFixed32 | SFixed64 | SInt32 | SInt64 | Enum

  /** An identity for a CLR type (stands for `System.Type`). */
  datatype ClrType = ClrType(fullName: string)

  datatype FieldDescriptor = FieldDescriptor(
    name: string,
    fieldNumber: int,
    jsonName: string,
    fieldType: FieldType,
    isRepeated: bool)

  /** A message type; `fields` is in declaration order and `clrType` is the
      generated class the message is bound to. */
  datatype MessageDescriptor = MessageDescriptor(
    name: string,
    fullName: string,
    clrType: ClrType,
    fields: seq<FieldDescriptor>)

  datatype ServiceDescriptor = ServiceDescriptor(fullName: string)

  datatype MethodDescriptor = MethodDescriptor(
    name: string,
    service: ServiceDescriptor,
    inputType: MessageDescriptor,
    outputType: MessageDescriptor)

  /** `google.api.CustomHttpPattern`: a verb outside the standard five. */
  datatype CustomHttpPattern = CustomHttpPattern(kind: string, path: string)

  /** The `pattern` one-of of `google.api.HttpRule`: at most one case is set. */
  datatype Pattern =
    | PatternNotSet
    | Get(path: string)
    | Put(path: string)
    | Post(path: string)
    | Delete(path: string)
    | Patch(path: string)
    | Custom(custom: CustomHttpPattern)

  /** `google.api.HttpRule`, reduced to the members the core reads. */
  datatype HttpRule = HttpRule(pattern: Pattern, body: string)

  /** A parsed route template, reduced to the names of its parameters in
      template order (`RoutePattern.Parameters`). */
  datatype RoutePattern = RoutePattern(parameterNames: seq<string>)

  // ---------------------------------------------------------------------
  // Field-number order (`MessageDescriptor.Fields.InFieldNumberOrder()`)
  // ---------------------------------------------------------------------

  predicate SortedByNumber(fields: seq<FieldDescriptor>) {
    forall i, j :: 0 <= i < j < |fields| ==> fields[i].fieldNumber <= fields[j].fieldNumber
  }

  /** Two fields with the same number are the same field, as protobuf demands
      of the fields of one message. */
  ghost predicate NumbersIdentify(fields: multiset<FieldDescriptor>) {
    forall f, g :: f in fields && g in fields && f.fieldNumber == g.fieldNumber ==> f == g
  }

  /** Every field of `fields` has a number of at least `n`. */
  predicate NumbersAtLeast(n: int, fields: seq<FieldDescriptor>) {
    forall k :: 0 <= k < |fields| ==> n <= fields[k].fieldNumber
  }

  /** Inserts `f` before the first field whose number is not smaller, so that
      among equal numbers the earlier-declared field stays first. */
  function InsertByNumber(f: FieldDescriptor, sorted: seq<FieldDescriptor>): (r: seq<FieldDescriptor>)
    ensures multiset(r) == multiset(sorted) + multiset{f}
    ensures |r| == |sorted| + 1
  {
    if sorted == [] || f.fieldNumber <= sorted[0].fieldNumber then [f] + sorted
    else
      assert sorted == [sorted[0]] + sorted[1..];
      [sorted[0]] + InsertByNumber(f, sorted[1..])
  }

  /** A lower bound on the numbers of a sequence is one on every element of
      its multiset. */
  lemma NumbersAtLeastMultiset(n: int, fields: seq<FieldDescriptor>, g: FieldDescriptor)
    requires NumbersAtLeast(n, fields)
    requires g in multiset(fields)
    ensures n <= g.fieldNumber
  {
    assert g in fields;
  }

  lemma {:induction false} InsertByNumberBounded(n: int, f: FieldDescriptor, sorted: seq<FieldDescriptor>)
    requires NumbersAtLeast(n, sorted) && n <= f.fieldNumber
    ensures NumbersAtLeast(n, InsertByNumber(f, sorted))
  {
    var r := InsertByNumber(f, sorted);
    forall k | 0 <= k < |r| ensures n <= r[k].fieldNumber {
      assert r[k] in multiset(r);
      if r[k] != f {
        assert r[k] in multiset(sorted);
        NumbersAtLeastMultiset(n, sorted, r[k]);
      }
    }
  }

  lemma {:induction false} InsertByNumberSorted(f: FieldDescriptor, sorted: seq<FieldDescriptor>)
    requires SortedByNumber(sorted)
    ensures SortedByNumber(InsertByNumber(f, sorted))
  {
    if sorted == [] || f.fieldNumber <= sorted[0].fieldNumber {
    } else {
      var tail := sorted[1..];
      InsertByNumberSorted(f, tail);
      assert NumbersAtLeast(sorted[0].fieldNumber, tail);
      InsertByNumberBounded(sorted[0].fieldNumber, f, tail);
    }
  }

  /** The fields ordered by ascending field number; a stable sort, like the
      protobuf runtime's `OrderBy(field => field.FieldNumber)`. Sortedness
      and permutation are the two lemmas below. */
  function InFieldNumberOrder(fields: seq<FieldDescriptor>): (r: seq<FieldDescriptor>)
    ensures |r| == |fields|
  {
    if fields == [] then []
    else InsertByNumber(fields[0], InFieldNumberOrder(fields[1..]))
  }

  /** The field-number order is sorted by number. */
  lemma {:induction false} InFieldNumberOrderSorted(fields: seq<FieldDescriptor>)
    ensures SortedByNumber(InFieldNumberOrder(fields))
  {
    if fields != [] {
      InFieldNumberOrderSorted(fields[1..]);
      InsertByNumberSorted(fields[0], InFieldNumberOrder(fields[1..]));
    }
  }

  /** The field-number order holds exactly the message's fields. */
  lemma {:induction false} InFieldNumberOrderPermutes(fields: seq<FieldDescriptor>)
    ensures multiset(InFieldNumberOrder(fields)) == multiset(fields)
  {
    if fields != [] {
      InFieldNumberOrderPermutes(fields[1..]);
      assert fields == [fields[0]] + fields[1..];
    }
  }

  /** The head of a sorted sequence has the smallest number in it. */
  lemma HeadIsLeast(a: seq<FieldDescriptor>, g: FieldDescriptor)
    requires SortedByNumber(a) && g in multiset(a)
    ensures a[0].fieldNumber <= g.fieldNumber
  {
    assert g in a;
    var k :| 0 <= k < |a| && a[k] == g;
    if k > 0 {
      assert a[0].fieldNumber <= a[k].fieldNumber;
    }
  }

  /** Sorted orderings of the same fields start with the same field. */
  lemma HeadsAgree(a: seq<FieldDescriptor>, b: seq<FieldDescriptor>)
    requires a != [] && SortedByNumber(a) && SortedByNumber(b)
    requires multiset(a) == multiset(b)
    requires NumbersIdentify(multiset(a))
    ensures b != [] && a[0] == b[0]
  {
    assert a[0] in multiset(a);
    assert b != [];
    assert b[0] in multiset(b);
    HeadIsLeast(a, b[0]);
    HeadIsLeast(b, a[0]);
  }

  lemma SortedTail(a: seq<FieldDescriptor>)
    requires a != [] && SortedByNumber(a)
    ensures SortedByNumber(a[1..])
  {
  }

  lemma TailMultiset(a: seq<FieldDescriptor>)
    requires a != []
    ensures multiset(a[1..]) == multiset(a) - multiset{a[0]}
  {
    assert a == [a[0]] + a[1..];
  }

  lemma NumbersIdentifySubset(smaller: multiset<FieldDescriptor>, larger: multiset<FieldDescriptor>)
    requires smaller <= larger && NumbersIdentify(larger)
    ensures NumbersIdentify(smaller)
  {
  }

  /** After equal heads, the tails again satisfy the premises of uniqueness. */
  lemma TailsAgree(a: seq<FieldDescriptor>, b: seq<FieldDescriptor>)
    requires a != [] && b != [] && a[0] == b[0]
    requires SortedByNumber(a) && SortedByNumber(b)
    requires multiset(a) == multiset(b)
    requires NumbersIdentify(multiset(a))
    ensures SortedByNumber(a[1..]) && SortedByNumber(b[1..])
    ensures multiset(a[1..]) == multiset(b[1..])
    ensures NumbersIdentify(multiset(a[1..]))
  {
    SortedTail(a);
    SortedTail(b);
    TailMultiset(a);
    TailMultiset(b);
    NumbersIdentifySubset(multiset(a[1..]), multiset(a));
  }

  lemma SameHeadSameTail(a: seq<FieldDescriptor>, b: seq<FieldDescriptor>)
    requires a != [] && b != [] && a[0] == b[0] && a[1..] == b[1..]
    ensures a == b
  {
    assert a == [a[0]] + a[1..] && b == [b[0]] + b[1..];
  }

  /** Two sorted orderings of the same fields coincide when field numbers
      identify fields. */
  lemma {:induction false} SortedOrderingUnique(a: seq<FieldDescriptor>, b: seq<FieldDescriptor>)
    requires SortedByNumber(a) && SortedByNumber(b)
    requires multiset(a) == multiset(b)
    requires NumbersIdentify(multiset(a))
    ensures a == b
  {
    if a == [] {
      assert |b| == |a|;
    } else {
      assert b != [] && a[0] == b[0] by { HeadsAgree(a, b); }
      assert a[1..] == b[1..] by {
        TailsAgree(a, b);
        SortedOrderingUnique(a[1..], b[1..]);
      }
      SameHeadSameTail(a, b);
    }
  }

  /** The field-number order does not depend on declaration order: any two
      declaration orders of the same fields give the same sequence. */
  lemma InFieldNumberOrderIndependent(a: seq<FieldDescriptor>, b: seq<FieldDescriptor>)
    requires multiset(a) == multiset(b)
    requires NumbersIdentify(multiset(a))
    ensures InFieldNumberOrder(a) == InFieldNumberOrder(b)
  {
    InFieldNumberOrderSorted(a);
    InFieldNumberOrderSorted(b);
    InFieldNumberOrderPermutes(a);
    InFieldNumberOrderPermutes(b);
    SortedOrderingUnique(InFieldNumberOrder(a), InFieldNumberOrder(b));
  }
}
