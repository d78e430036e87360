/**
 * The history the safety argument speaks about, and what it promises.
 *
 * None of it exists in the program. It records what every leader's log has been, who voted for whom, what each
 * candidate's log ended with, and how far each node has acknowledged each leader.
 */
module Ghosts {
  import opened RaftTypes

  /** How a snapshot's data relates to the entries it stands for. */
  type SnapRel = (seq<Entry>, seq<byte>) -> bool

  /** The log of each term's leader. */
  type Logs = map<nat, seq<Entry>>

  ghost predicate AnyData(prefix: seq<Entry>, data: seq<byte>) {
    true
  }

  datatype Ghost = Ghost(
    voters: seq<nat>,
    rel: SnapRel,
    payload: set<seq<byte>>,                // everything ever proposed
    start: nat,                             // where the applying of the current Step began
    tlog: Logs,                             // term -> log of that term's leader
    leader: map<nat, nat>,                  // term -> its leader
    quorum: map<nat, set<nat>>,             // term -> the votes that elected it
    votes: map<(nat, nat), nat>,            // (term, voter) -> candidate
    key: map<(nat, nat), (nat, nat)>,       // (term, candidate) -> last term and index of its log
    acks: map<(nat, nat), nat>)             // (term, node) -> index acknowledged to that term's leader

  ghost predicate NoDuplicates(a: seq<nat>) {
    forall i, j :: 0 <= i < j < |a| ==> a[i] != a[j]
  }

  ghost predicate Majority(gh: Ghost, q: set<nat>) {
    (forall v :: v in q ==> v in gh.voters) && 2 * |q| > |gh.voters|
  }

  /** The two sequences agree on their first k entries. */
  ghost predicate Agree(a: seq<Entry>, b: seq<Entry>, k: nat) {
    k <= |a| && k <= |b| && a[..k] == b[..k]
  }

  /** Entry k of term T's log was created by the leader of term T. */
  ghost predicate Own(tlog: Logs, T: nat, k: nat) {
    T in tlog && 1 <= k <= |tlog[T]| && tlog[T][k - 1].term == T
  }

  /** The first k entries of term T's log, the last of them created in T or before. */
  ghost predicate Within(tlog: Logs, T: nat, k: nat) {
    T in tlog && k <= |tlog[T]| && (k > 0 ==> tlog[T][k - 1].term <= T)
  }

  /** Every leader after T up to U holds the first k entries of T's log. */
  ghost predicate LaterHave(tlog: Logs, T: nat, k: nat, U: nat)
    requires T in tlog
  {
    forall V :: V in tlog && T < V <= U ==> Agree(tlog[V], tlog[T], k)
  }

  ghost function AckSet(gh: Ghost, T: nat, k: nat): set<nat> {
    set v | v in gh.voters && (T, v) in gh.acks && gh.acks[(T, v)] >= k
  }

  /** A majority acknowledged entry k of term T to its leader in term T. */
  ghost predicate Committed(gh: Ghost, T: nat, k: nat) {
    Own(gh.tlog, T, k) && Majority(gh, AckSet(gh, T, k))
  }

  /** A prefix that some term up to t committed. */
  ghost predicate IsCommitted(gh: Ghost, s: seq<Entry>, t: nat) {
    |s| == 0 || exists T: nat, k: nat :: T <= t && Committed(gh, T, k) && Agree(gh.tlog[T], s, |s|) && |s| <= k
  }

  // ---- The invariant of the history

  /** The log of one term: numbered from 1, terms rise to the leader's, and every entry's past is its own leader's. */
  ghost predicate TermLog(tlog: Logs, T: nat, l: seq<Entry>) {
    && T >= 1
    && (forall k :: 0 <= k < |l| ==> l[k].index == k + 1 && 1 <= l[k].term <= T && l[k].typ != Conf)
    && (forall j, k :: 0 <= j <= k < |l| ==> l[j].term <= l[k].term)
    && (forall k :: 0 <= k < |l| ==> l[k].term in tlog && Agree(tlog[l[k].term], l, k + 1))
  }

  ghost predicate TermLogs(tlog: Logs) {
    forall T :: T in tlog ==> TermLog(tlog, T, tlog[T])
  }

  /** Ordinary entries carry what was proposed. */
  ghost predicate Payloads(tlog: Logs, payload: set<seq<byte>>) {
    forall T, k :: T in tlog && 0 <= k < |tlog[T]| && tlog[T][k].typ == Normal ==> tlog[T][k].data in payload
  }

  ghost predicate Elected(gh: Ghost, T: nat)
    requires T in gh.leader && T in gh.quorum
  {
    Majority(gh, gh.quorum[T])
    && forall q :: q in gh.quorum[T] ==> (T, q) in gh.votes && gh.votes[(T, q)] == gh.leader[T]
  }

  ghost predicate Elections(gh: Ghost) {
    && gh.leader.Keys == gh.tlog.Keys
    && gh.quorum.Keys == gh.tlog.Keys
    && (forall T :: T in gh.tlog ==> Elected(gh, T))
    && (forall U, i :: (U, i) in gh.votes ==> (U, gh.votes[(U, i)]) in gh.key)
  }

  ghost predicate Acknowledged(gh: Ghost) {
    forall T, i :: (T, i) in gh.acks ==> T in gh.tlog && gh.acks[(T, i)] <= |gh.tlog[T]|
  }

  ghost predicate KeyReaches(key: (nat, nat), T: nat, k: nat) {
    key.0 > T || (key.0 == T && key.1 >= k)
  }

  /** A node that acknowledged (T, k) and later voted in U voted for a candidate reaching (T, k), unless a
      leader in between lacks it. */
  ghost predicate VotesSafe(gh: Ghost)
    requires Elections(gh) && Acknowledged(gh)
  {
    forall U: nat, i: nat, T: nat, k: nat ::
      (U, i) in gh.votes && (T, i) in gh.acks && T < U && k <= gh.acks[(T, i)] && Own(gh.tlog, T, k) &&
      LaterHave(gh.tlog, T, k, U)
      ==> KeyReaches(gh.key[(U, gh.votes[(U, i)])], T, k)
  }

  /** The leader of U holds what its electors acknowledged, unless a leader in between lacks it. */
  ghost predicate LeadersSafe(gh: Ghost)
    requires Elections(gh) && Acknowledged(gh)
  {
    forall U: nat, i: nat, T: nat, k: nat ::
      U in gh.tlog && i in gh.quorum[U] && (T, i) in gh.acks && T < U && k <= gh.acks[(T, i)] && Own(gh.tlog, T, k) &&
      LaterHave(gh.tlog, T, k, U - 1)
      ==> Agree(gh.tlog[U], gh.tlog[T], k)
  }

  lemma VotesSafeAt(gh: Ghost, U: nat, i: nat, T: nat, k: nat)
    requires Elections(gh) && Acknowledged(gh) && VotesSafe(gh)
    requires (U, i) in gh.votes && (T, i) in gh.acks && T < U && k <= gh.acks[(T, i)]
    requires Own(gh.tlog, T, k) && LaterHave(gh.tlog, T, k, U)
    ensures KeyReaches(gh.key[(U, gh.votes[(U, i)])], T, k)
  {
    hide Own, LaterHave, KeyReaches;
  }

  lemma LeadersSafeAt(gh: Ghost, U: nat, i: nat, T: nat, k: nat)
    requires Elections(gh) && Acknowledged(gh) && LeadersSafe(gh)
    requires U in gh.tlog && i in gh.quorum[U] && (T, i) in gh.acks && T < U && k <= gh.acks[(T, i)]
    requires Own(gh.tlog, T, k) && LaterHave(gh.tlog, T, k, U - 1)
    ensures Agree(gh.tlog[U], gh.tlog[T], k)
  {
    hide Own, LaterHave, Agree;
  }

  ghost predicate GhostInv(gh: Ghost) {
    && NoDuplicates(gh.voters)
    && TermLogs(gh.tlog)
    && Payloads(gh.tlog, gh.payload)
    && Elections(gh)
    && Acknowledged(gh)
    && VotesSafe(gh)
    && LeadersSafe(gh)
  }

  // ---- Growth of the history

  /** A leader's log only grows, and what it grows by is of its own term. */
  ghost predicate Grows(a: seq<Entry>, b: seq<Entry>, T: nat) {
    && |a| <= |b|
    && b[..|a|] == a
    && forall k :: |a| <= k < |b| ==> b[k].term == T
  }

  ghost predicate Ext(gh: Ghost, gh': Ghost) {
    && gh'.voters == gh.voters
    && gh'.rel == gh.rel
    && gh.payload <= gh'.payload
    && (forall T :: T in gh.tlog ==> T in gh'.tlog && Grows(gh.tlog[T], gh'.tlog[T], T))
    && (forall T :: T in gh.leader ==> T in gh'.leader && gh'.leader[T] == gh.leader[T])
    && (forall x :: x in gh.votes ==> x in gh'.votes && gh'.votes[x] == gh.votes[x])
    && (forall x :: x in gh.key ==> x in gh'.key && gh'.key[x] == gh.key[x])
    && (forall x :: x in gh.acks ==> x in gh'.acks && gh.acks[x] <= gh'.acks[x])
  }

  /** Growth caused by node i alone: it votes, campaigns and acknowledges for itself, and extends the terms it leads. */
  ghost predicate OnlyBy(i: nat, gh: Ghost, gh': Ghost)
    requires Ext(gh, gh')
  {
    && (forall T :: T in gh.tlog && T in gh.leader && gh.leader[T] != i ==> gh'.tlog[T] == gh.tlog[T])
    && (forall T :: T in gh'.leader && T !in gh.leader ==> gh'.leader[T] == i)
    && (forall U, j :: j != i && (U, j) in gh'.votes ==> (U, j) in gh.votes)
    && (forall U, j :: j != i && (U, j) in gh'.key ==> (U, j) in gh.key)
    && (forall T, j :: j != i && (T, j) in gh'.acks ==> (T, j) in gh.acks && gh'.acks[(T, j)] == gh.acks[(T, j)])
  }

  ghost predicate ExtBy(i: nat, gh: Ghost, gh': Ghost) {
    Ext(gh, gh') && OnlyBy(i, gh, gh')
  }

  lemma ExtRefl(gh: Ghost, i: nat)
    ensures ExtBy(i, gh, gh)
  {
  }

  lemma GrowsTrans(a: seq<Entry>, b: seq<Entry>, c: seq<Entry>, T: nat)
    requires Grows(a, b, T) && Grows(b, c, T)
    ensures Grows(a, c, T)
  {
    assert c[..|a|] == c[..|b|][..|a|];
    forall k | |a| <= k < |c| ensures c[k].term == T {
      if k < |b| {
        assert c[k] == c[..|b|][k];
      }
    }
  }

  lemma ExtTrans(a: Ghost, b: Ghost, c: Ghost)
    requires Ext(a, b) && Ext(b, c)
    ensures Ext(a, c)
  {
    forall T | T in a.tlog ensures T in c.tlog && Grows(a.tlog[T], c.tlog[T], T) {
      GrowsTrans(a.tlog[T], b.tlog[T], c.tlog[T], T);
    }
  }

  lemma ExtByTrans(i: nat, a: Ghost, b: Ghost, c: Ghost)
    requires ExtBy(i, a, b) && ExtBy(i, b, c)
    ensures ExtBy(i, a, c)
  {
    ExtTrans(a, b, c);
  }

  // ---- Consequences

  lemma AgreeSym(a: seq<Entry>, b: seq<Entry>, k: nat)
    requires Agree(a, b, k)
    ensures Agree(b, a, k)
  {
  }

  lemma AgreeBounds(a: seq<Entry>, b: seq<Entry>, k: nat)
    requires Agree(a, b, k)
    ensures k <= |a| && k <= |b|
  {
  }

  lemma AgreeTrans(a: seq<Entry>, b: seq<Entry>, c: seq<Entry>, k: nat)
    requires Agree(a, b, k) && Agree(b, c, k)
    ensures Agree(a, c, k)
  {
  }

  lemma AgreeLess(a: seq<Entry>, b: seq<Entry>, k: nat, j: nat)
    requires Agree(a, b, k) && j <= k
    ensures Agree(a, b, j)
    ensures forall x :: 0 <= x < k ==> a[x] == b[x]
  {
    assert a[..j] == a[..k][..j] && b[..j] == b[..k][..j];
    forall x | 0 <= x < k ensures a[x] == b[x] {
      assert a[x] == a[..k][x] && b[x] == b[..k][x];
    }
  }

  lemma GrowsAgree(a: seq<Entry>, b: seq<Entry>, T: nat)
    requires Grows(a, b, T)
    ensures Agree(b, a, |a|)
    ensures forall x :: 0 <= x < |a| ==> b[x] == a[x]
  {
    assert a[..|a|] == a;
    AgreeLess(b, a, |a|, |a|);
  }

  ghost function Elements(a: seq<nat>): set<nat> {
    set x | x in a
  }

  /** Two majorities of the same voters share a voter. */
  lemma MajoritiesMeet(gh: Ghost, a: set<nat>, b: set<nat>) returns (v: nat)
    requires NoDuplicates(gh.voters)
    requires Majority(gh, a) && Majority(gh, b)
    ensures v in a && v in b
  {
    DistinctCount(gh.voters);
    assert |a + b| + |a * b| == |a| + |b|;
    SubsetSize(a + b, Elements(gh.voters));
    assert a * b != {};
    v :| v in a * b;
  }

  lemma SubsetSize(a: set<nat>, b: set<nat>)
    requires a <= b
    ensures |a| <= |b|
  {
    assert b == a + (b - a);
  }

  lemma {:induction false} DistinctCount(a: seq<nat>)
    requires NoDuplicates(a)
    ensures |Elements(a)| == |a|
  {
    if a != [] {
      var n := |a| - 1;
      DistinctCount(a[..n]);
      assert a == a[..n] + [a[n]];
      assert a[n] !in Elements(a[..n]);
      assert Elements(a) == Elements(a[..n]) + {a[n]};
    }
  }

  /** The classic argument: what a majority acknowledged in term T is in the log of every later leader. */
  lemma {:induction false} LeaderCompleteness(gh: Ghost, T: nat, k: nat, U: nat)
    requires GhostInv(gh)
    requires Committed(gh, T, k) && U in gh.tlog && T < U
    ensures Agree(gh.tlog[U], gh.tlog[T], k)
    decreases U
  {
    forall V | V in gh.tlog && T < V <= U - 1 ensures Agree(gh.tlog[V], gh.tlog[T], k) {
      LeaderCompleteness(gh, T, k, V);
    }
    assert Elected(gh, U);
    var v := MajoritiesMeet(gh, AckSet(gh, T, k), gh.quorum[U]);
    assert LaterHave(gh.tlog, T, k, U - 1);
  }

  /** A committed prefix is a prefix of every leader's log from its term on that is long enough to tell. */
  lemma CommittedInLeader(gh: Ghost, s: seq<Entry>, t: nat, U: nat)
    requires GhostInv(gh)
    requires IsCommitted(gh, s, t) && t <= U && U in gh.tlog
    ensures Agree(gh.tlog[U], s, |s|)
  {
    hide GhostInv;
    if |s| > 0 {
      var T: nat, k: nat :| T <= t && Committed(gh, T, k) && Agree(gh.tlog[T], s, |s|) && |s| <= k;
      if T < U {
        LeaderCompleteness(gh, T, k, U);
        AgreeLess(gh.tlog[U], gh.tlog[T], k, |s|);
      }
    } else {
      assert gh.tlog[U][..0] == s[..0];
    }
  }

  /** Committed prefixes never contradict each other. */
  lemma CommittedConsistent(gh: Ghost, a: seq<Entry>, b: seq<Entry>, t: nat, u: nat, i: nat)
    requires GhostInv(gh)
    requires IsCommitted(gh, a, t) && IsCommitted(gh, b, u)
    requires i < |a| && i < |b|
    ensures a[i] == b[i]
  {
    hide GhostInv;
    var T: nat, k: nat :| T <= t && Committed(gh, T, k) && Agree(gh.tlog[T], a, |a|) && |a| <= k;
    var U: nat, m: nat :| U <= u && Committed(gh, U, m) && Agree(gh.tlog[U], b, |b|) && |b| <= m;
    AgreeLess(gh.tlog[T], a, |a|, |a|);
    AgreeLess(gh.tlog[U], b, |b|, |b|);
    if T < U {
      LeaderCompleteness(gh, T, k, U);
      AgreeLess(gh.tlog[U], gh.tlog[T], k, k);
    } else if U < T {
      LeaderCompleteness(gh, U, m, T);
      AgreeLess(gh.tlog[T], gh.tlog[U], m, m);
    }
  }

  // ---- Growth keeps what was true

  lemma OwnGrows(gh: Ghost, gh': Ghost, T: nat, k: nat)
    requires Ext(gh, gh') && Own(gh.tlog, T, k)
    ensures Own(gh'.tlog, T, k) && Agree(gh'.tlog[T], gh.tlog[T], k)
  {
    GrowsAgree(gh.tlog[T], gh'.tlog[T], T);
    AgreeLess(gh'.tlog[T], gh.tlog[T], |gh.tlog[T]|, k);
  }

  lemma CommittedGrows(gh: Ghost, gh': Ghost, T: nat, k: nat)
    requires Ext(gh, gh') && Committed(gh, T, k)
    ensures Committed(gh', T, k)
  {
    OwnGrows(gh, gh', T, k);
    SubsetSize(AckSet(gh, T, k), AckSet(gh', T, k));
  }

  lemma IsCommittedGrows(gh: Ghost, gh': Ghost, s: seq<Entry>, t: nat, t': nat)
    requires Ext(gh, gh') && IsCommitted(gh, s, t) && t <= t'
    ensures IsCommitted(gh', s, t')
  {
    if |s| > 0 {
      var T: nat, k: nat :| T <= t && Committed(gh, T, k) && Agree(gh.tlog[T], s, |s|) && |s| <= k;
      CommittedGrows(gh, gh', T, k);
      OwnGrows(gh, gh', T, k);
      AgreeLess(gh'.tlog[T], gh.tlog[T], k, |s|);
    }
  }

  lemma IsCommittedLess(gh: Ghost, s: seq<Entry>, t: nat, n: nat)
    requires IsCommitted(gh, s, t) && n <= |s|
    ensures IsCommitted(gh, s[..n], t)
  {
    if n > 0 {
      var T: nat, k: nat :| T <= t && Committed(gh, T, k) && Agree(gh.tlog[T], s, |s|) && |s| <= k;
      AgreeLess(gh.tlog[T], s, |s|, n);
      assert Agree(gh.tlog[T], s[..n], |s[..n]|);
    }
  }

  lemma OwnWithin(tlog: Logs, T: nat, k: nat)
    requires Own(tlog, T, k)
    ensures Within(tlog, T, k)
  {
  }

  /** Growth cannot make a leader that lacked an entry of an earlier term acquire it. */
  lemma LaterHaveBack(gh: Ghost, gh': Ghost, T: nat, k: nat, U: nat)
    requires Ext(gh, gh') && Within(gh.tlog, T, k) && T in gh'.tlog
    requires LaterHave(gh'.tlog, T, k, U)
    ensures LaterHave(gh.tlog, T, k, U)
  {
    GrowsAgree(gh.tlog[T], gh'.tlog[T], T);
    forall V | V in gh.tlog && T < V <= U ensures Agree(gh.tlog[V], gh.tlog[T], k) {
      var a, b := gh.tlog[V], gh'.tlog[V];
      assert Agree(b, gh'.tlog[T], k);
      GrowsAgree(a, b, V);
      AgreeLess(b, gh'.tlog[T], k, k);
      assert k > 0 ==> b[k - 1].term <= T;
      assert k <= |a|;
      assert a[..k] == gh.tlog[T][..k];
    }
  }
}
