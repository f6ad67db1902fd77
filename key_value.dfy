/**
 * The `key=value` entries that the repository and `--set` options parse:
 * an entry is split at its FIRST `=` (Go's `strings.SplitN(s, "=", 2)`), and
 * the two halves are put back together as `key=value` before use.
 */
module KeyValueFormat {
  import opened Wrappers

  /** An entry split at its first `=`. */
  datatype Pair = Pair(key: string, value: string)

  /** The entry rebuilt from its halves, as `fmt.Sprintf("%s=%s", key, value)` does. */
  function Join(p: Pair): (r: string)
    ensures |r| == |p.key| + 1 + |p.value| && r[|p.key|] == '='
  {
    p.key + "=" + p.value
  }

  /** Position of the first `c` in `s`, or None when `s` has none. */
  function IndexOf(s: string, c: char): (r: Option<nat>)
    ensures r.None? <==> c !in s
    ensures r.Some? ==> r.value < |s| && s[r.value] == c && c !in s[..r.value]
  {
    if s == [] then None
    else if s[0] == c then Some(0)
    else
      match IndexOf(s[1..], c)
      case None => assert s == [s[0]] + s[1..]; None
      case Some(i) => assert s[..i + 1] == [s[0]] + s[1..][..i]; Some(i + 1)
  }

  /**
   * The two parts `strings.SplitN(s, "=", 2)` returns, or None when it
   * returns only one part (there is no `=` in `s`).
   */
  function Split(s: string): (r: Option<Pair>)
    ensures r.Some? <==> '=' in s
    ensures r.Some? ==> Join(r.value) == s && '=' !in r.value.key
  {
    match IndexOf(s, '=')
    case None => None
    case Some(i) =>
      assert s == s[..i] + "=" + s[i + 1..];
      Some(Pair(s[..i], s[i + 1..]))
  }

  /** Splitting a joined pair gives the pair back when its key has no `=`. */
  lemma SplitJoin(p: Pair)
    requires '=' !in p.key
    ensures Split(Join(p)) == Some(p)
  {
    var s := Join(p);
    var k := |p.key|;
    assert s[..k] == p.key && s[k] == '=' && s[k + 1..] == p.value;
    assert IndexOf(s, '=') == Some(k);
  }

  /** Every entry is in `key=value` form. */
  predicate AllPairs(entries: seq<string>)
  {
    forall i :: 0 <= i < |entries| ==> '=' in entries[i]
  }

  /** Index of the first entry that is not in `key=value` form, or |entries|. */
  function FirstMalformed(entries: seq<string>): (k: nat)
    ensures k <= |entries|
    ensures AllPairs(entries[..k])
    ensures k < |entries| ==> '=' !in entries[k]
  {
    if entries == [] then 0
    else if '=' !in entries[0] then 0
    else
      var k := FirstMalformed(entries[1..]);
      assert entries[..k + 1] == [entries[0]] + entries[1..][..k];
      k + 1
  }

  /** FirstMalformed is pinned down by its contract. */
  lemma FirstMalformedAt(entries: seq<string>, k: nat)
    requires k <= |entries| && AllPairs(entries[..k])
    requires k < |entries| ==> '=' !in entries[k]
    ensures FirstMalformed(entries) == k
  {
    var m := FirstMalformed(entries);
    forall i | 0 <= i < k
      ensures '=' in entries[i]
    {
      assert entries[..k][i] == entries[i];
    }
    forall i | 0 <= i < m
      ensures '=' in entries[i]
    {
      assert entries[..m][i] == entries[i];
    }
  }
}
