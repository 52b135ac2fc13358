/** The client's table of interleaved channels (src/rtsp_client_priv.h:171-191, src/rtsp_client.c:678-701, 2340-2371). */
module Channels {
  import opened Wrappers

  const CHANNELS := 256

  type Channel = c: int | 0 <= c < CHANNELS

  datatype Pair = Pair(rtp: Channel, rtcp: Channel)

  const NO_PAIR := Pair(0, 0)

  /** `is_channel_pair_valid` */
  predicate Valid(p: Pair) { p.rtp != p.rtcp }

  /** The channels a pair stands for: none when it is not valid. */
  function Both(p: Pair): set<Channel> { if Valid(p) then {p.rtp, p.rtcp} else {} }

  // --- the search for a free pair ---

  /** The 8-bit index of the search loop after `n` rounds. */
  function Index(n: nat): Channel { (2 * n) % CHANNELS }

  predicate FreeAt(used: set<Channel>, i: Channel) { i < CHANNELS - 1 && i !in used && i + 1 !in used }

  ghost predicate FreePair(used: set<Channel>) { exists n: nat :: FreeAt(used, Index(n)) }

  /** The first free pair from `i` on. */
  function FirstFree(used: set<Channel>, i: int): (r: Option<Channel>)
    requires 0 <= i <= CHANNELS && i % 2 == 0
    ensures r.Some? ==> i <= r.value && r.value % 2 == 0 && FreeAt(used, r.value)
    ensures r.Some? ==> forall k: Channel :: i <= k < r.value && k % 2 == 0 ==> !FreeAt(used, k)
    ensures r.None? ==> forall k: Channel :: i <= k && k % 2 == 0 ==> !FreeAt(used, k)
    decreases CHANNELS - i
  {
    if i == CHANNELS then None
    else if FreeAt(used, i) then Some(i)
    else FirstFree(used, i + 2)
  }

  /** The loop runs round after round unless an even channel and its successor are free. */
  lemma SearchEndsIff(used: set<Channel>)
    ensures (exists n: nat :: FreeAt(used, Index(n))) <==> FirstFree(used, 0).Some?
    ensures !FreePair(used) ==> forall n: nat :: Index(n) < CHANNELS - 1 && !FreeAt(used, Index(n))
  {
    hide Index, FreeAt;
    var r := FirstFree(used, 0);
    if r.Some? {
      IndexOfEven(r.value);
    }
    forall n: nat ensures Index(n) < CHANNELS - 1 && (r.None? ==> !FreeAt(used, Index(n))) {
      IndexEven(n);
    }
  }

  lemma IndexEven(n: nat)
    ensures Index(n) % 2 == 0 && Index(n) < CHANNELS - 1
  {
    var q, m := n / 128, n % 128;
    assert 2 * n == CHANNELS * q + 2 * m;
    Remainder(q, 2 * m);
    HalfEven(m);
  }

  lemma Remainder(q: int, r: int)
    requires 0 <= r < CHANNELS
    ensures (CHANNELS * q + r) % CHANNELS == r
  {
  }

  lemma HalfEven(m: int)
    ensures (2 * m) % 2 == 0
  {
  }

  lemma IndexOfEven(i: Channel)
    requires i % 2 == 0
    ensures Index(i / 2) == i
  {
  }

  /** `allocate_interleaved_channels`: the requested pair, or for an invalid one the first free pair. */
  function Allocate(used: set<Channel>, p: Pair): (r: Option<Pair>)
    requires Valid(p) || FirstFree(used, 0).Some?
    ensures r.Some? ==> Valid(r.value) && Both(r.value) !! used
    ensures r.None? <==> Valid(p) && !(Both(p) !! used)
  {
    if Valid(p) then
      assert p.rtp in Both(p) && p.rtcp in Both(p);
      if p.rtp in used || p.rtcp in used then None else Some(p)
    else
      var i := FirstFree(used, 0).value;
      Some(Pair(i, i + 1))
  }

  // --- aligned tables ---

  /** Channels come and go by aligned pairs: an even channel and its successor. */
  predicate AlignedPair(p: Pair) { Valid(p) ==> p.rtp / 2 == p.rtcp / 2 }

  ghost predicate Aligned(used: set<Channel>) {
    forall c: Channel :: c in used <==> Twin(c) in used
  }

  function Twin(c: Channel): Channel { if c % 2 == 0 then c + 1 else c - 1 }

  lemma {:induction false} AtMost(used: set<Channel>, n: nat)
    requires forall c :: c in used ==> c < n
    ensures |used| <= n
  {
    if n > 0 {
      var last := n - 1;
      AtMost(used - {last}, n - 1);
      assert last in used ==> used == (used - {last}) + {last};
      assert last !in used ==> used - {last} == used;
    } else {
      assert used == {};
    }
  }

  lemma {:induction false} AtLeast(used: set<Channel>, n: nat)
    requires n <= CHANNELS && forall c: Channel :: c < n ==> c in used
    ensures |used| >= n
  {
    if n > 0 {
      AtLeast(used - {n - 1}, n - 1);
      assert used == (used - {n - 1}) + {n - 1};
    }
  }

  /** On an aligned table, two unused channels are enough for the search to end. */
  lemma AlignedSearchEnds(used: set<Channel>)
    requires Aligned(used)
    ensures CHANNELS - |used| >= 2 <==> FirstFree(used, 0).Some?
  {
    var r := FirstFree(used, 0);
    if r.None? {
      forall c: Channel ensures c in used {
        var even := c - c % 2;
        assert !FreeAt(used, even);
        assert Twin(even) == even + 1;
      }
      AtLeast(used, CHANNELS);
    } else {
      AtMost(used + {r.value, r.value + 1}, CHANNELS);
      assert |used + {r.value, r.value + 1}| == |used| + 2;
    }
  }

  lemma AllocateAligned(used: set<Channel>, p: Pair)
    requires Aligned(used) && AlignedPair(p) && (Valid(p) || FirstFree(used, 0).Some?)
    ensures Allocate(used, p).Some? ==> AlignedPair(Allocate(used, p).value)
  {
  }

  lemma MarkAligned(used: set<Channel>, p: Pair)
    requires Aligned(used) && AlignedPair(p)
    ensures Aligned(used + Both(p)) && Aligned(used - Both(p))
  {
    assert Valid(p) ==> Twin(p.rtp) == p.rtcp && Twin(p.rtcp) == p.rtp;
    forall c: Channel ensures c in Both(p) <==> Twin(c) in Both(p) {
    }
  }

  predicate IsOdd(c: Channel) { c % 2 == 1 }

  lemma OddTaken(used: set<Channel>)
    requires forall c: Channel :: IsOdd(c) ==> c in used
    ensures !FreePair(used)
  {
    hide Index;
    forall n: nat ensures !FreeAt(used, Index(n)) {
      IndexEven(n);
      assert IsOdd(Index(n) + 1);
    }
  }

  /** Without alignment it is not: with every odd channel in use, there are unused ones and the search never ends. */
  lemma OddChannelsNeverEnd()
    ensures var odd := set c: Channel | IsOdd(c); CHANNELS - |odd| >= 2 && !FreePair(odd)
  {
    var odd := set c: Channel | IsOdd(c);
    var more := odd + {0, 2};
    AtMost(more, CHANNELS);
    assert |odd + {0}| == |odd| + 1 && more == (odd + {0}) + {2};
    OddTaken(odd);
  }

  // --- the table itself ---

  function Marked(table: seq<bool>): set<Channel> {
    set c: Channel | c < |table| && table[c]
  }

  lemma MarkedUpdate(table: seq<bool>, i: Channel, v: bool)
    requires |table| == CHANNELS
    ensures Marked(table[i := v]) == if v then Marked(table) + {i} else Marked(table) - {i}
  {
    forall c: Channel ensures c in Marked(table[i := v]) <==> if c == i then v else c in Marked(table) {
    }
  }

  /** `count_channel_unused` */
  method CountUnused(table: array<bool>) returns (unused: nat)
    requires table.Length == CHANNELS
    ensures unused == CHANNELS - |Marked(table[..])|
  {
    unused := 0;
    ghost var seen: set<Channel> := {};
    for i := 0 to CHANNELS
      invariant seen == set c: Channel | c < i && table[c]
      invariant unused == i - |seen|
    {
      if !table[i] {
        unused := unused + 1;
      } else {
        assert i !in seen;
        seen := seen + {i};
      }
    }
    assert seen == Marked(table[..]);
  }

  /** `set_channel_pair_used` */
  method SetPairUsed(table: array<bool>, pair: Pair, used: bool)
    requires table.Length == CHANNELS
    modifies table
    ensures Marked(table[..]) == if used then old(Marked(table[..])) + Both(pair) else old(Marked(table[..])) - Both(pair)
  {
    if Valid(pair) {
      ghost var was := table[..];
      table[pair.rtp] := used;
      ghost var half := table[..];
      assert half == was[pair.rtp := used];
      MarkedUpdate(was, pair.rtp, used);
      table[pair.rtcp] := used;
      assert table[..] == half[pair.rtcp := used];
      MarkedUpdate(half, pair.rtcp, used);
    }
  }

  /** The search loop of `allocate_interleaved_channels`, with its 8-bit index. */
  method FindFree(table: array<bool>) returns (i: Channel)
    requires table.Length == CHANNELS && FirstFree(Marked(table[..]), 0).Some?
    ensures FirstFree(Marked(table[..]), 0) == Some(i)
  {
    i := 0;
    ghost var used := Marked(table[..]);
    ghost var free := FirstFree(used, 0).value;
    while i < CHANNELS - 1
      invariant i % 2 == 0 && i <= free && FirstFree(used, i) == Some(free)
      decreases free - i
    {
      assert (i in used <==> table[i]) && (i + 1 in used <==> table[i + 1]);
      if !table[i] && !table[i + 1] {
        return;
      }
      i := (i + 2) % CHANNELS;
    }
  }

  /** `allocate_interleaved_channels`; None is the error for a requested channel that is in use. */
  method AllocateChannels(table: array<bool>, pair: Pair) returns (r: Option<Pair>)
    requires table.Length == CHANNELS
    requires Valid(pair) || FirstFree(Marked(table[..]), 0).Some?
    modifies table
    ensures r == old(Allocate(Marked(table[..]), pair))
    ensures Marked(table[..]) == if r.Some? then old(Marked(table[..])) + Both(r.value) else old(Marked(table[..]))
  {
    if Valid(pair) {
      if table[pair.rtp] {
        return None;
      }
      if table[pair.rtcp] {
        return None;
      }
      r := Some(pair);
    } else {
      var i := FindFree(table);
      r := Some(Pair(i, i + 1));
    }
    SetPairUsed(table, r.value, true);
  }
}
