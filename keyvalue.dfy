/** Applying a list of "K=V" strings to a string map, in order, the way the label
    loop of start (cmd/start.go:104-109) and the os.Setenv loops (cmd/start.go:168-175,
    220-227) do: each entry is split at its first '=', entries without '=' are
    skipped, and an entry is applied only when `accept` admits its key and value
    (os.Setenv refuses some). Later entries overwrite earlier ones. */
module KeyValue {
  import opened Base
  import opened Text

  function Get(m: map<string, string>, k: string): Option<string> {
    if k in m then Some(m[k]) else None
  }

  /** The map after applying `entries` to `m`, one at a time from the first. */
  function Assign(m: map<string, string>, entries: seq<string>, accept: (string, string) -> bool): (r: map<string, string>)
    ensures m.Keys <= r.Keys
    decreases |entries|
  {
    if entries == [] then m
    else
      var prior := Assign(m, entries[..|entries| - 1], accept);
      match SplitOnce(entries[|entries| - 1])
      case Some((k, v)) => if accept(k, v) then prior[k := v] else prior
      case None => prior
  }

  /** The value of the last entry that assigns key `k`, if any. */
  function Winner(entries: seq<string>, k: string, accept: (string, string) -> bool): (w: Option<string>)
    ensures w.Some? ==> accept(k, w.value) && k + "=" + w.value in entries
    decreases |entries|
  {
    if entries == [] then None
    else
      var rest := entries[..|entries| - 1];
      match SplitOnce(entries[|entries| - 1])
      case Some((k', v)) => if k' == k && accept(k', v) then Some(v) else Winner(rest, k, accept)
      case None => Winner(rest, k, accept)
  }

  /** Each key ends up with the value of its last accepted entry, and a key no
      entry assigns keeps the value it had. */
  lemma {:induction false} AssignLookup(m: map<string, string>, entries: seq<string>, accept: (string, string) -> bool, k: string)
    ensures Get(Assign(m, entries, accept), k) == if Winner(entries, k, accept).Some? then Winner(entries, k, accept) else Get(m, k)
    decreases |entries|
  {
    if entries != [] {
      AssignLookup(m, entries[..|entries| - 1], accept, k);
    }
  }

  /** An appended accepted "k=v" entry wins over every earlier one. */
  lemma WinnerAppend(entries: seq<string>, k: string, v: string, accept: (string, string) -> bool)
    requires '=' !in k && accept(k, v)
    ensures Winner(entries + [k + "=" + v], k, accept) == Some(v)
  {
    SplitOnceJoin(k, v);
  }

  /** An appended entry for another key, or one `accept` refuses, or one without '=',
      changes nothing for `k`. */
  lemma WinnerAppendOther(entries: seq<string>, e: string, k: string, accept: (string, string) -> bool)
    requires SplitOnce(e).Some? ==> SplitOnce(e).value.0 != k || !accept(k, SplitOnce(e).value.1)
    ensures Winner(entries + [e], k, accept) == Winner(entries, k, accept)
  {
    assert (entries + [e])[..|entries|] == entries;
  }

  /** The winner of a list that starts with `e` is the winner of the rest, or, when
      the rest never assigns `k`, the winner of `e` alone. */
  lemma {:induction false} WinnerCons(e: string, entries: seq<string>, k: string, accept: (string, string) -> bool)
    ensures Winner([e] + entries, k, accept) == if Winner(entries, k, accept).Some? then Winner(entries, k, accept) else Winner([e], k, accept)
    decreases |entries|
  {
    if entries != [] {
      var all := [e] + entries;
      assert all[..|all| - 1] == [e] + entries[..|entries| - 1];
      assert all[|all| - 1] == entries[|entries| - 1];
      WinnerCons(e, entries[..|entries| - 1], k, accept);
    }
  }

  /** Two maps that agree on every key are equal. */
  lemma MapsEqual(a: map<string, string>, b: map<string, string>)
    requires forall k :: Get(a, k) == Get(b, k)
    ensures a == b
  {
    assert a.Keys == b.Keys by {
      forall k ensures k in a <==> k in b {
        assert Get(a, k) == Get(b, k);
      }
    }
    forall k | k in a ensures a[k] == b[k] {
      assert Get(a, k) == Get(b, k);
    }
  }
}
