/** The Response Catalog and the Intent Resolver of index.js: a fixed,
    ordered table of services and the lookup `getIntentResponse`. */
module Catalog {
  import opened Wrappers

  /** One row of the `data` table. */
  datatype Entry = Entry(name: string, description: string, slotVal: string)

  /** What the resolver says when no row matches. */
  const NotFound: string := "No service found in our record"

  /** The `data` table, in source order. */
  const Data: seq<Entry> := [
    Entry("Lambda Functions", "Lambda functions description", "lambda"),
    Entry("EC2", "EC2 description", "ec2"),
    Entry("BeanStalk Functions", "BeanStalk description", "beanstalk")
  ]

  /** `item.slotVal === term`: strict, case-sensitive equality; a term that is
      `undefined` (None) equals no string. */
  predicate Matches(e: Entry, term: Option<string>) {
    term == Some(e.slotVal)
  }

  /** No two rows share a slot value. */
  predicate DistinctSlotVals(t: seq<Entry>) {
    forall i, j :: 0 <= i < |t| && 0 <= j < |t| && t[i].slotVal == t[j].slotVal ==> i == j
  }

  /** Reference definition of the first match: the index of the first row
      whose slot value equals the term, or `|t|` when no row does. */
  function FirstMatchIndex(t: seq<Entry>, term: Option<string>): (i: nat)
    ensures i <= |t|
    ensures i < |t| ==> Matches(t[i], term)
    ensures forall j :: 0 <= j < i ==> !Matches(t[j], term)
  {
    if t == [] then 0
    else if Matches(t[0], term) then 0
    else 1 + FirstMatchIndex(t[1..], term)
  }

  /** `data.filter(item => item.slotVal === term)`: the matching rows, in table
      order; it is empty exactly when no row matches, and otherwise starts with
      the first matching row. */
  function Filter(t: seq<Entry>, term: Option<string>): (r: seq<Entry>)
    ensures |r| <= |t|
    ensures forall e :: e in r <==> e in t && Matches(e, term)
    ensures (r != []) == (FirstMatchIndex(t, term) < |t|)
    ensures r != [] ==> r[0] == t[FirstMatchIndex(t, term)]
  {
    if t == [] then []
    else if Matches(t[0], term) then [t[0]] + Filter(t[1..], term)
    else Filter(t[1..], term)
  }

  /** The body of `getIntentResponse` over an arbitrary table: the description of
      the first matching row, or the fallback text when no row matches. */
  function Lookup(t: seq<Entry>, term: Option<string>): (r: string)
    ensures FirstMatchIndex(t, term) == |t| ==> r == NotFound
    ensures FirstMatchIndex(t, term) < |t| ==> r == t[FirstMatchIndex(t, term)].description
  {
    var resp := Filter(t, term);
    if |resp| > 0 then resp[0].description else NotFound
  }

  /** `getIntentResponse(term)`: the lookup over the fixed table. */
  function GetIntentResponse(term: Option<string>): string {
    Lookup(Data, term)
  }

  /** The lookup answers with the description of the first row whose slot value
      equals the term. */
  lemma LookupFirstMatch(t: seq<Entry>, term: Option<string>, i: nat)
    requires i < |t| && Matches(t[i], term)
    requires forall j :: 0 <= j < i ==> !Matches(t[j], term)
    ensures Lookup(t, term) == t[i].description
  {
    var f := FirstMatchIndex(t, term);
    assert f <= i;
  }

  /** With distinct slot values, any row that matches is the one whose
      description is returned. */
  lemma LookupUniqueMatch(t: seq<Entry>, term: Option<string>, e: Entry)
    requires DistinctSlotVals(t)
    requires e in t && Matches(e, term)
    ensures Lookup(t, term) == e.description
  {
    var i :| 0 <= i < |t| && t[i] == e;
    LookupFirstMatch(t, term, i);
  }

  /** With distinct slot values the order of the rows does not matter: a
      table holding the same rows as one with distinct slot values answers
      every term alike. */
  lemma LookupOrderIndependent(t1: seq<Entry>, t2: seq<Entry>, term: Option<string>)
    requires DistinctSlotVals(t1)
    requires multiset(t1) == multiset(t2)
    ensures Lookup(t1, term) == Lookup(t2, term)
  {
    if e :| e in t1 && Matches(e, term) {
      LookupUniqueMatch(t1, term, e);
      assert e in multiset(t2);
      var k :| 0 <= k < |t2| && t2[k] == e;
      var i := FirstMatchIndex(t2, term);
      assert i <= k;
      assert t2[i] in multiset(t1);
      var a :| 0 <= a < |t1| && t1[a] == t2[i];
      var b :| 0 <= b < |t1| && t1[b] == e;
      assert a == b;
    } else {
      forall i | 0 <= i < |t2| ensures !Matches(t2[i], term) {
        assert t2[i] in multiset(t1);
      }
    }
  }

  /** Filtering keeps table order: the filter of two tables joined is the
      filter of the first followed by the filter of the second. */
  lemma {:induction false} FilterAppend(t1: seq<Entry>, t2: seq<Entry>, term: Option<string>)
    ensures Filter(t1 + t2, term) == Filter(t1, term) + Filter(t2, term)
  {
    if t1 == [] {
      assert t1 + t2 == t2;
    } else {
      assert (t1 + t2)[1..] == t1[1..] + t2;
      FilterAppend(t1[1..], t2, term);
    }
  }

  /** Rows added after the existing ones never change the answer for a term
      that some existing row already matches. */
  lemma LookupExtend(t: seq<Entry>, extra: seq<Entry>, term: Option<string>, k: nat)
    requires k < |t| && Matches(t[k], term)
    ensures Lookup(t + extra, term) == Lookup(t, term)
  {
    var i := FirstMatchIndex(t, term);
    assert i <= k;
    forall j | 0 <= j <= i ensures (t + extra)[j] == t[j] { }
    LookupFirstMatch(t + extra, term, i);
  }

  /** With distinct slot values the filter finds at most one row, so `resp[0]`
      is the only candidate. */
  lemma {:induction false} FilterAtMostOne(t: seq<Entry>, term: Option<string>)
    requires DistinctSlotVals(t)
    ensures |Filter(t, term)| <= 1
  {
    if t != [] {
      var tail := t[1..];
      assert DistinctSlotVals(tail) by {
        forall i, j | 0 <= i < |tail| && 0 <= j < |tail| && tail[i].slotVal == tail[j].slotVal
          ensures i == j
        {
          assert t[i + 1] == tail[i] && t[j + 1] == tail[j];
        }
      }
      FilterAtMostOne(tail, term);
      if Matches(t[0], term) {
        forall e | e in tail ensures !Matches(e, term) {
          var j :| 0 <= j < |tail| && tail[j] == e;
          assert t[j + 1] == e;
        }
      }
    }
  }

  /** The table's slot values 'lambda', 'ec2' and 'beanstalk' are pairwise distinct. */
  lemma DataSlotValsDistinct()
    ensures DistinctSlotVals(Data)
  {
  }

  /** Each slot value of the table resolves to its own row's description. */
  lemma DataEntriesResolve()
    ensures forall e :: e in Data ==> GetIntentResponse(Some(e.slotVal)) == e.description
    ensures GetIntentResponse(Some("lambda")) == "Lambda functions description"
    ensures GetIntentResponse(Some("ec2")) == "EC2 description"
    ensures GetIntentResponse(Some("beanstalk")) == "BeanStalk description"
  {
    DataSlotValsDistinct();
    forall e | e in Data ensures GetIntentResponse(Some(e.slotVal)) == e.description {
      LookupUniqueMatch(Data, Some(e.slotVal), e);
    }
    assert Data[0] in Data && Data[1] in Data && Data[2] in Data;
  }

  /** The fallback text is returned exactly when no row of the table matches:
      no row's description is the fallback text. */
  lemma GetIntentResponseNotFoundIff(term: Option<string>)
    ensures GetIntentResponse(term) == NotFound <==> forall e :: e in Data ==> !Matches(e, term)
  {
    if e :| e in Data && Matches(e, term) {
      DataSlotValsDistinct();
      LookupUniqueMatch(Data, term, e);
    }
  }
}
