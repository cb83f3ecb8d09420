/** Kernel tuning: the six parameters the installer sets, and the persistent
    tuning of `/etc/sysctl.conf` done by `setOsConstants`: a line `key=value` is
    appended for every parameter whose key does not occur anywhere in the text
    the file held before the first append. */
module Sysctl {
  import opened Text

  datatype Param = Param(key: string, value: string)

  /** The parameters, in the order both tunings use them. */
  const KernelParams: seq<Param> := [
    Param("vm.max_map_count", "262144"),
    Param("net.ipv4.ip_local_port_range", "\"15000 61000\""),
    Param("net.ipv4.tcp_fin_timeout", "30"),
    Param("net.core.somaxconn", "1024"),
    Param("net.core.netdev_max_backlog", "2000"),
    Param("net.ipv4.tcp_max_syn_backlog", "2048")
  ]

  /** `"{0}={1}\n".format(key, value)`. */
  function Line(p: Param): string
  {
    p.key + "=" + p.value + "\n"
  }

  /** What `writeOsConstantIfNotExist` appends for `p`, judged against the snapshot. */
  function LineIfMissing(snapshot: string, p: Param): string
  {
    if Find(snapshot, p.key) == -1 then Line(p) else ""
  }

  /** The text appended for the parameters `ps`, in order, all judged against
      the same snapshot. */
  function MissingLines(snapshot: string, ps: seq<Param>): string
  {
    if |ps| == 0 then [] else LineIfMissing(snapshot, ps[0]) + MissingLines(snapshot, ps[1..])
  }

  /** The file after `setOsConstants`. */
  function Tuned(content: string): string
  {
    content + MissingLines(content, KernelParams)
  }

  /** What occurs in a part of a text occurs in the text. */
  lemma ContainsInSuffix(a: string, b: string, pat: string)
    requires Contains(b, pat)
    ensures Contains(a + b, pat)
  {
    var i :| 0 <= i <= |b| && MatchAt(b, pat, i);
    assert (a + b)[|a| + i..|a| + i + |pat|] == b[i..i + |pat|];
    assert MatchAt(a + b, pat, |a| + i);
  }

  lemma ContainsInPrefix(a: string, b: string, pat: string)
    requires Contains(a, pat)
    ensures Contains(a + b, pat)
  {
    var i :| 0 <= i <= |a| && MatchAt(a, pat, i);
    assert (a + b)[i..i + |pat|] == a[i..i + |pat|];
    assert MatchAt(a + b, pat, i);
  }

  lemma LineContainsKey(p: Param)
    ensures Contains(Line(p), p.key)
  {
    assert Line(p)[0..|p.key|] == p.key;
    assert MatchAt(Line(p), p.key, 0);
  }

  /** Every key of `ps` is already in the snapshot, or occurs in the snapshot,
      any earlier appended text `pre` and the lines appended for `ps`. */
  lemma {:induction false} MissingLinesCover(s: string, pre: string, ps: seq<Param>)
    ensures forall p :: p in ps ==> Contains(s + pre + MissingLines(s, ps), p.key) || Contains(s, p.key)
    decreases |ps|
  {
    if |ps| > 0 {
      var here := LineIfMissing(s, ps[0]);
      var rest := MissingLines(s, ps[1..]);
      var whole := s + pre + MissingLines(s, ps);
      ConcatAssoc(s + pre, here, rest);
      ConcatAssoc(s, pre, here);
      assert whole == s + (pre + here) + rest;
      MissingLinesCover(s, pre + here, ps[1..]);
      forall p | p in ps ensures Contains(whole, p.key) || Contains(s, p.key) {
        if p == ps[0] {
          if Find(s, p.key) == -1 {
            LineContainsKey(p);
            ContainsInSuffix(s + pre, here, p.key);
            ContainsInPrefix(s + pre + here, rest, p.key);
          }
        } else {
          assert p in ps[1..];
        }
      }
    }
  }

  /** After appending the missing lines, every key of `ps` occurs. */
  lemma CoverAll(s: string, ps: seq<Param>)
    ensures forall p :: p in ps ==> Contains(s + MissingLines(s, ps), p.key)
  {
    var m := MissingLines(s, ps);
    MissingLinesCover(s, [], ps);
    assert s + [] + m == s + m;
    forall p | p in ps ensures Contains(s + m, p.key) {
      if Contains(s, p.key) {
        ContainsInPrefix(s, m, p.key);
      }
    }
  }

  /** Every parameter's key occurs in the tuned file. */
  lemma TunedHasEveryKey(content: string)
    ensures forall p :: p in KernelParams ==> Contains(Tuned(content), p.key)
  {
    CoverAll(content, KernelParams);
  }

  /** When every key already occurs, nothing is appended. */
  lemma {:induction false} NothingMissing(s: string, ps: seq<Param>)
    requires forall p :: p in ps ==> Contains(s, p.key)
    ensures MissingLines(s, ps) == []
    decreases |ps|
  {
    if |ps| > 0 {
      assert ps[0] in ps;
      NothingMissing(s, ps[1..]);
    }
  }

  /** When no key occurs, every line is appended, in the fixed order. */
  lemma {:induction false} AllMissing(s: string, ps: seq<Param>)
    requires forall p :: p in ps ==> !Contains(s, p.key)
    ensures MissingLines(s, ps) == AllLines(ps)
    decreases |ps|
  {
    if |ps| > 0 {
      assert ps[0] in ps;
      AllMissing(s, ps[1..]);
    }
  }

  /** The lines of `ps`, in order. */
  function AllLines(ps: seq<Param>): string
  {
    if |ps| == 0 then [] else Line(ps[0]) + AllLines(ps[1..])
  }

  /** One more parameter handled: the text so far plus what the remaining
      parameters would append is still the tuned file. */
  lemma TunedProgress(snapshot: string, done: string, k: nat)
    requires k < |KernelParams|
    requires done + MissingLines(snapshot, KernelParams[k..]) == Tuned(snapshot)
    ensures (done + LineIfMissing(snapshot, KernelParams[k])) + MissingLines(snapshot, KernelParams[k + 1..]) == Tuned(snapshot)
  {
    MissingLinesStep(snapshot, KernelParams, k);
  }

  lemma MissingLinesStep(s: string, ps: seq<Param>, k: nat)
    requires k < |ps|
    ensures MissingLines(s, ps[k..]) == LineIfMissing(s, ps[k]) + MissingLines(s, ps[k + 1..])
  {
    assert ps[k..][1..] == ps[k + 1..];
  }

  /** Running the tuning on its own output appends nothing. */
  lemma TunedIdempotent(content: string)
    ensures Tuned(Tuned(content)) == Tuned(content)
  {
    TunedHasEveryKey(content);
    NothingMissing(Tuned(content), KernelParams);
  }
}
