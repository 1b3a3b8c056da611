// Entries, logs and quorums: the vocabulary shared by every layer of the model.
module Logs {
  type Id = string

  datatype Option<+T> = None | Some(value: T)

  // One replicated log entry.
  datatype Entry = Entry(term: nat, command: string)

  type Log = seq<Entry>

  // The first n entries of a and b exist and coincide.
  ghost predicate Agree(a: Log, b: Log, n: nat) {
    n <= |a| && n <= |b| && a[..n] == b[..n]
  }

  // Term of the entry at one-based position n; position 0 has term 0.
  function TermAt(l: Log, n: nat): nat
    requires n <= |l|
  {
    if n == 0 then 0 else l[n - 1].term
  }

  function LastTerm(l: Log): nat {
    TermAt(l, |l|)
  }

  // A voter holding l accepts a candidate whose log ends at (term, index).
  predicate AcceptsEnd(l: Log, term: nat, index: nat) {
    term > LastTerm(l) || (term == LastTerm(l) && index >= |l|)
  }

  lemma AgreeShorter(a: Log, b: Log, n: nat, k: nat)
    requires Agree(a, b, n) && k <= n
    ensures Agree(a, b, k)
  {
    assert a[..k] == a[..n][..k];
    assert b[..k] == b[..n][..k];
  }

  lemma AgreeEntry(a: Log, b: Log, n: nat, k: nat)
    requires Agree(a, b, n) && k < n
    ensures a[k] == b[k]
  {
    assert a[k] == a[..n][k];
    assert b[k] == b[..n][k];
  }

  lemma AgreeTermAt(a: Log, b: Log, n: nat)
    requires Agree(a, b, n)
    ensures TermAt(a, n) == TermAt(b, n)
    ensures n > 0 ==> a[n - 1] == b[n - 1]
  {
    if n > 0 {
      assert a[n - 1] == a[..n][n - 1];
      assert b[n - 1] == b[..n][n - 1];
    }
  }

  // Logs that extend b agree with whatever b agreed with.
  lemma AgreeExtend(a: Log, b: Log, c: Log, n: nat)
    requires Agree(a, b, n) && b <= c
    ensures Agree(a, c, n) && Agree(c, a, n)
  {
    assert c[..n] == b[..n];
  }

  // Length of the longest common prefix.
  function CommonPrefix(a: Log, b: Log): (n: nat)
    ensures n <= |a| && n <= |b| && a[..n] == b[..n]
    ensures n < |a| && n < |b| ==> a[n] != b[n]
  {
    if a == [] || b == [] || a[0] != b[0] then 0
    else
      var m := CommonPrefix(a[1..], b[1..]);
      assert a[..m + 1] == [a[0]] + a[1..][..m];
      assert b[..m + 1] == [b[0]] + b[1..][..m];
      m + 1
  }

  predicate Quorum(members: set<Id>, q: set<Id>) {
    q <= members && |q| >= |members| / 2 + 1
  }

  // Any two quorums share a member.
  lemma QuorumsMeet(members: set<Id>, p: set<Id>, q: set<Id>) returns (i: Id)
    requires Quorum(members, p) && Quorum(members, q)
    ensures i in p && i in q
  {
    if p * q == {} {
      assert |p + q| == |p| + |q|;
      SubsetSize(p + q, members);
      assert false;
    }
    i :| i in p * q;
  }

  lemma {:induction false} SubsetSize<T>(a: set<T>, b: set<T>)
    requires a <= b
    ensures |a| <= |b|
    decreases |a|
  {
    if a != {} {
      var x :| x in a;
      SubsetSize(a - {x}, b - {x});
    }
  }

  // ---------------------------------------------------------------- identifiers

  predicate Distinct(ids: seq<Id>) {
    forall j, k :: 0 <= j < k < |ids| ==> ids[j] != ids[k]
  }

  predicate IdChar(c: char) {
    'a' <= c <= 'z' || 'A' <= c <= 'Z' || '0' <= c <= '9' || c == '_' || c == '.' || c == ':' || c == '-'
  }

  // Identifiers that parse.
  predicate ValidId(s: Id) {
    0 < |s| <= 64 && forall k :: 0 <= k < |s| ==> IdChar(s[k])
  }
}
