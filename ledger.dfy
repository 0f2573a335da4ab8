/** The resume ledger: the tracking file `<stem>.downloaded.txt`, which holds
    each finished id followed by ';', is read back into the list of processed
    ids at start-up and appended to as worker results come in. */
module Ledger {
  import opened Wrappers
  import opened Text

  const Sep: char := ';'

  /** The pieces that are not empty, in order. */
  function NonEmpty(pieces: seq<string>): (r: seq<string>)
    ensures forall i :: 0 <= i < |r| ==> r[i] != "" && r[i] in pieces
    ensures |r| <= |pieces|
    decreases |pieces|
  {
    if pieces == [] then []
    else (if pieces[0] == "" then [] else [pieces[0]]) + NonEmpty(pieces[1..])
  }

  lemma {:induction false} NonEmptyAppend(a: seq<string>, b: seq<string>)
    ensures NonEmpty(a + b) == NonEmpty(a) + NonEmpty(b)
    decreases |a|
  {
    if a == [] {
      assert a + b == b;
    } else {
      assert (a + b)[0] == a[0];
      assert (a + b)[1..] == a[1..] + b;
      NonEmptyAppend(a[1..], b);
    }
  }

  /** Reading the ledger's text: split on ';' and drop the empty pieces.
      No loaded id is empty or contains the separator. */
  function Load(text: string): (ids: seq<string>)
    ensures forall i :: 0 <= i < |ids| ==> ids[i] != "" && Sep !in ids[i]
  {
    NonEmpty(Split(text, Sep))
  }

  /** The text that appending `ids` to the ledger writes: each id, then ';'.
      It is empty only for no ids and always ends in the separator. */
  function Encode(ids: seq<string>): (r: string)
    ensures r == "" <==> ids == []
    ensures Terminated(r)
  {
    if ids == [] then "" else ids[0] + [Sep] + Encode(ids[1..])
  }

  /** The worker results that the drain loop writes: Python's `if result:`
      is false for `None` and for the empty string. */
  function Truthy(results: seq<Option<string>>): (r: seq<string>)
    ensures |r| <= |results|
    ensures forall i :: 0 <= i < |r| ==> r[i] != "" && Some(r[i]) in results
    ensures forall i :: 0 <= i < |results| && results[i].Some? && results[i].value != "" ==> results[i].value in r
  {
    if results == [] then []
    else
      (if results[0].Some? && results[0].value != "" then [results[0].value] else [])
      + Truthy(results[1..])
  }

  /** A ledger that only the drain loop wrote is empty or ends in the separator. */
  predicate Terminated(text: string) {
    text == "" || text[|text| - 1] == Sep
  }

  lemma {:induction false} EncodeAppend(a: seq<string>, b: seq<string>)
    ensures Encode(a + b) == Encode(a) + Encode(b)
    decreases |a|
  {
    if a == [] {
      assert a + b == b;
    } else {
      assert (a + b)[0] == a[0];
      assert (a + b)[1..] == a[1..] + b;
      EncodeAppend(a[1..], b);
    }
  }

  lemma {:induction false} TruthyAppend(a: seq<Option<string>>, b: seq<Option<string>>)
    ensures Truthy(a + b) == Truthy(a) + Truthy(b)
    decreases |a|
  {
    if a == [] {
      assert a + b == b;
    } else {
      assert (a + b)[0] == a[0];
      assert (a + b)[1..] == a[1..] + b;
      TruthyAppend(a[1..], b);
    }
  }

  /** After a terminated prefix, the ledger reads as the two parts one after the other. */
  lemma LoadAppend(a: string, b: string)
    requires Terminated(a)
    ensures Load(a + b) == Load(a) + Load(b)
  {
    if a == "" {
      assert a + b == b;
      assert Load(a) == [];
    } else {
      var a' := a[..|a| - 1];
      assert a == a' + [Sep];
      assert a + b == a' + [Sep] + b;
      LoadAfterSep(a', b);
    }
  }

  lemma LoadAfterSep(a': string, b: string)
    ensures Load(a' + [Sep] + b) == Load(a' + [Sep]) + Load(b)
  {
    SplitAfter(a', b);
    SplitAfter(a', "");
    assert a' + [Sep] + "" == a' + [Sep];
    assert Load("") == [];
  }

  lemma SplitAfter(a': string, b: string)
    ensures Load(a' + [Sep] + b) == NonEmpty(Split(a', Sep)) + Load(b)
  {
    SplitAround(a', Sep, b);
    NonEmptyAppend(Split(a', Sep), Split(b, Sep));
  }

  /** Round trip: ids that are not empty and hold no ';' are read back exactly. */
  lemma {:induction false} LoadEncode(ids: seq<string>)
    requires forall i :: 0 <= i < |ids| ==> ids[i] != "" && Sep !in ids[i]
    ensures Load(Encode(ids)) == ids
    ensures Terminated(Encode(ids))
    decreases |ids|
  {
    if ids == [] {
      assert Load("") == [];
    } else {
      var a, tail := ids[0], ids[1..];
      var rest := Encode(tail);
      assert forall i :: 0 <= i < |tail| ==> tail[i] == ids[i + 1];
      LoadEncode(tail);
      assert Encode(ids) == a + [Sep] + rest;
      LoadCons(a, rest);
      assert ids == [a] + tail;
    }
  }

  /** An id followed by the separator is read as that id, then the rest. */
  lemma LoadCons(a: string, rest: string)
    requires a != "" && Sep !in a
    ensures Load(a + [Sep] + rest) == [a] + Load(rest)
  {
    SplitAfter(a, rest);
    SplitWhole(a, Sep);
    assert NonEmpty([a]) == [a] + NonEmpty([]);
  }

  /** What the drain loop appends to a well-formed ledger is read back after
      the ids already there, and the ledger stays well formed, provided no
      worker result contains ';'. */
  lemma Reload(before: string, results: seq<Option<string>>)
    requires Terminated(before)
    requires forall i :: 0 <= i < |results| && results[i].Some? ==> Sep !in results[i].value
    ensures Load(before + Encode(Truthy(results))) == Load(before) + Truthy(results)
    ensures Terminated(before + Encode(Truthy(results)))
  {
    TruthyClean(results);
    LoadEncode(Truthy(results));
    LoadAppend(before, Encode(Truthy(results)));
    var e := Encode(Truthy(results));
    if e != "" {
      assert (before + e)[|before + e| - 1] == e[|e| - 1];
    } else {
      assert before + e == before;
    }
  }

  lemma {:induction false} TruthyClean(results: seq<Option<string>>)
    requires forall i :: 0 <= i < |results| && results[i].Some? ==> Sep !in results[i].value
    ensures forall i :: 0 <= i < |Truthy(results)| ==> Truthy(results)[i] != "" && Sep !in Truthy(results)[i]
    decreases |results|
  {
    if results != [] {
      TruthyClean(results[1..]);
    }
  }

  /** How often an id is written does not depend on the order of the results:
      it is the number of results that returned it (never for the empty id). */
  lemma {:induction false} TruthyCount(results: seq<Option<string>>, x: string)
    ensures multiset(Truthy(results))[x] == if x == "" then 0 else multiset(results)[Some(x)]
    decreases |results|
  {
    if results != [] {
      TruthyCount(results[1..], x);
      assert results == [results[0]] + results[1..];
    }
  }

  /** Any two completion orders of the same results write the same ids. */
  lemma TruthyOrderFree(c1: seq<Option<string>>, c2: seq<Option<string>>)
    requires multiset(c1) == multiset(c2)
    ensures multiset(Truthy(c1)) == multiset(Truthy(c2))
  {
    forall x: string ensures multiset(Truthy(c1))[x] == multiset(Truthy(c2))[x] {
      TruthyCount(c1, x);
      TruthyCount(c2, x);
    }
  }

  /** A completion order of `n` pending results in the way `as_completed`
      yields them: each step takes one of the results still pending.  Such
      an order has one step per result, the k-th choosing among the n - k
      results left. */
  predicate ValidPicks(picks: seq<nat>, n: nat)
    ensures ValidPicks(picks, n) <==> |picks| == n && forall k :: 0 <= k < |picks| ==> picks[k] < n - k
    decreases |picks|
  {
    if picks == [] then n == 0
    else
      assert forall k :: 0 < k < |picks| ==> picks[1..][k - 1] == picks[k];
      picks[0] < n && ValidPicks(picks[1..], n - 1)
  }

  /** `s` with the element at index `p` taken out. */
  function Without<T>(s: seq<T>, p: nat): (r: seq<T>)
    requires p < |s|
    ensures |r| == |s| - 1
  {
    s[..p] + s[p + 1..]
  }

  /** The results in the completion order that `picks` describes. */
  function Completed(results: seq<Option<string>>, picks: seq<nat>): (r: seq<Option<string>>)
    requires ValidPicks(picks, |results|)
    ensures |r| == |results|
    decreases |picks|
  {
    if picks == [] then []
    else
      var p := picks[0];
      [results[p]] + Completed(Without(results, p), picks[1..])
  }

  /** Every completion order is a permutation of the results. */
  lemma {:induction false} CompletedPermutes(results: seq<Option<string>>, picks: seq<nat>)
    requires ValidPicks(picks, |results|)
    ensures multiset(Completed(results, picks)) == multiset(results)
    decreases |picks|
  {
    if picks != [] {
      var p := picks[0];
      CompletedPermutes(Without(results, p), picks[1..]);
      assert results == results[..p] + [results[p]] + results[p + 1..];
    }
  }

  /** A completion order holds only results that were returned. */
  lemma CompletedMembers(results: seq<Option<string>>, picks: seq<nat>)
    requires ValidPicks(picks, |results|)
    ensures forall x :: x in Completed(results, picks) ==> x in results
  {
    CompletedPermutes(results, picks);
    forall x | x in Completed(results, picks) ensures x in results {
      assert x in multiset(Completed(results, picks));
    }
  }

  /** Results without the separator stay without it in any completion order. */
  lemma CompletedSepFree(results: seq<Option<string>>, picks: seq<nat>)
    requires ValidPicks(picks, |results|)
    requires forall i :: 0 <= i < |results| && results[i].Some? ==> Sep !in results[i].value
    ensures forall i :: 0 <= i < |Completed(results, picks)| && Completed(results, picks)[i].Some? ==>
              Sep !in Completed(results, picks)[i].value
  {
    CompletedMembers(results, picks);
    var done := Completed(results, picks);
    forall i | 0 <= i < |done| && done[i].Some? ensures Sep !in done[i].value {
      assert done[i] in results;
    }
  }

  /** Taking the next completed result leaves a valid order of the rest. */
  lemma PickStep(pending: seq<Option<string>>, picks: seq<nat>)
    requires picks != [] && ValidPicks(picks, |pending|)
    ensures ValidPicks(picks[1..], |pending| - 1)
    ensures Completed(pending, picks)
         == [pending[picks[0]]] + Completed(Without(pending, picks[0]), picks[1..])
  {
  }

  /** Writing one more result extends the encoding of the truthy results. */
  lemma WriteStep(done: seq<Option<string>>, result: Option<string>)
    ensures Encode(Truthy(done + [result]))
         == Encode(Truthy(done)) + (if result.Some? && result.value != "" then result.value + [Sep] else "")
  {
    TruthyAppend(done, [result]);
    EncodeAppend(Truthy(done), Truthy([result]));
    if result.Some? && result.value != "" {
      assert Truthy([result]) == [result.value];
      assert Encode([result.value]) == result.value + [Sep] + "";
    } else {
      assert Truthy([result]) == [];
    }
  }

  /** One turn of the drain loop keeps its invariant. */
  lemma DrainStep(results: seq<Option<string>>, picks: seq<nat>,
                  done: seq<Option<string>>, pending: seq<Option<string>>, toCome: seq<nat>)
    requires ValidPicks(picks, |results|)
    requires toCome != [] && ValidPicks(toCome, |pending|)
    requires done + Completed(pending, toCome) == Completed(results, picks)
    ensures ValidPicks(toCome[1..], |pending| - 1)
    ensures var p := toCome[0];
            (done + [pending[p]]) + Completed(Without(pending, p), toCome[1..])
            == Completed(results, picks)
  {
    PickStep(pending, toCome);
    var p := toCome[0];
    var rest := Completed(Without(pending, p), toCome[1..]);
    Regroup(done, pending[p], rest);
  }

  lemma Regroup<T>(done: seq<T>, x: T, rest: seq<T>)
    ensures done + ([x] + rest) == (done + [x]) + rest
  {
  }

  /** The drain loop: for each result as it completes, a truthy result is
      appended with its ';'.  What it writes is the ledger encoding of the
      truthy results in completion order. */
  method Drain(results: seq<Option<string>>, picks: seq<nat>) returns (appended: string)
    requires ValidPicks(picks, |results|)
    ensures appended == Encode(Truthy(Completed(results, picks)))
  {
    appended := "";
    var pending := results;
    var toCome := picks;
    ghost var done: seq<Option<string>> := [];
    while toCome != []
      invariant ValidPicks(toCome, |pending|)
      invariant done + Completed(pending, toCome) == Completed(results, picks)
      invariant appended == Encode(Truthy(done))
      decreases |toCome|
    {
      DrainStep(results, picks, done, pending, toCome);
      var p := toCome[0];
      var result := pending[p];
      WriteStep(done, result);
      pending := Without(pending, p);
      toCome := toCome[1..];
      if result.Some? && result.value != "" {
        appended := appended + result.value + [Sep];
      }
      done := done + [result];
    }
    assert done + Completed(pending, toCome) == done;
  }
}
