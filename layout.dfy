/** Channel layouts (src/layout.rs): the crate's `ChannelLayout`, its conversions to and from libsoundio's
    fixed-size `SoundIoChannelLayout`, layout equality, the searches `best_matching_channel_layout` and
    `find_channel`, the in-place `sort`, and the `ChannelLayoutId` mappings. */
module Layouts {
  import opened Wrappers
  import opened Errors
  import Channels
  import opened Util

  /** `SOUNDIO_MAX_CHANNELS` (libsoundio-sys/lib.rs:245): the number of slots of a raw layout. */
  const MaxChannels: nat := 24

  /** `ChannelLayout`: a display name and the channels in order. */
  datatype ChannelLayout = ChannelLayout(name: string, channels: seq<Channels.ChannelId>)

  /** `SoundIoChannelLayout`: a C string, a count, and a fixed array of `SoundIoChannelId`. */
  datatype RawChannelLayout = RawChannelLayout(name: CString, channelCount: CInt, channels: seq<Channels.RawChannelId>)

  /** What a raw layout handed over by libsoundio satisfies: 24 slots and a readable name. */
  predicate WellFormedRaw(r: RawChannelLayout) {
    |r.channels| == MaxChannels && Terminated(r.name)
  }

  function Min(a: int, b: int): int {
    if a <= b then a else b
  }

  /** How many slots `take(channel_count as usize)` reads: a negative `c_int` turns into a `usize` far above
      24, so all slots are read. */
  function TakenSlots(count: CInt): (n: nat)
    ensures n <= MaxChannels
    ensures 0 <= count <= MaxChannels ==> n == count
  {
    if count < 0 then MaxChannels else Min(count, MaxChannels)
  }

  /** `impl From<raw::SoundIoChannelLayout> for ChannelLayout`. */
  function FromRaw(r: RawChannelLayout): (l: ChannelLayout)
    requires WellFormedRaw(r)
    ensures l.name == Latin1ToString(r.name)
    ensures |l.channels| == TakenSlots(r.channelCount)
    ensures forall i :: 0 <= i < |l.channels| ==> l.channels[i] == Channels.FromRaw(r.channels[i])
  {
    var n := TakenSlots(r.channelCount);
    ChannelLayout(Latin1ToString(r.name), seq(n, i requires 0 <= i < n => Channels.FromRaw(r.channels[i])))
  }

  /** The raw layout that `impl From<ChannelLayout> for raw::SoundIoChannelLayout` builds. */
  function RawOf(l: ChannelLayout): (r: RawChannelLayout)
    ensures WellFormedRaw(r) && r.name == Null
    ensures r.channelCount == Min(|l.channels|, MaxChannels)
    ensures forall i :: 0 <= i < r.channelCount ==> r.channels[i] == Channels.ToRaw(l.channels[i])
    ensures forall i :: r.channelCount <= i < MaxChannels ==> r.channels[i] == Channels.ToRaw(Channels.Invalid)
  {
    var n := Min(|l.channels|, MaxChannels);
    RawChannelLayout(Null, n,
      seq(MaxChannels, i requires 0 <= i < MaxChannels => if i < n then Channels.ToRaw(l.channels[i]) else Channels.ToRaw(Channels.Invalid)))
  }

  /** `impl From<ChannelLayout> for raw::SoundIoChannelLayout`: the name is left null, the count is cut to
      24, the first channels are copied in order into an array of `Invalid`. */
  method ToRaw(l: ChannelLayout) returns (r: RawChannelLayout)
    ensures r == RawOf(l)
    ensures WellFormedRaw(r) && r.name == Null
    ensures r.channelCount == Min(|l.channels|, MaxChannels)
    ensures forall i :: 0 <= i < r.channelCount ==> r.channels[i] == Channels.ToRaw(l.channels[i])
    ensures forall i :: r.channelCount <= i < MaxChannels ==> r.channels[i] == Channels.ToRaw(Channels.Invalid)
  {
    var c := new Channels.RawChannelId[MaxChannels](_ => Channels.ToRaw(Channels.Invalid));
    var n := Min(|l.channels|, c.Length);
    for i := 0 to n
      invariant forall k :: 0 <= k < i ==> c[k] == Channels.ToRaw(l.channels[k])
      invariant forall k :: i <= k < MaxChannels ==> c[k] == Channels.ToRaw(Channels.Invalid)
    {
      c[i] := Channels.ToRaw(l.channels[i]);
    }
    r := RawChannelLayout(Null, n, c[..]);
  }

  /** `impl PartialEq for ChannelLayout`: the same channels in the same order; the name does not matter. */
  predicate Equal(a: ChannelLayout, b: ChannelLayout)
    ensures Equal(a, b) <==>
      |a.channels| == |b.channels| && forall i :: 0 <= i < |a.channels| ==> a.channels[i] == b.channels[i]
  {
    a.channels == b.channels
  }

  /** Through the raw layout and back, a layout keeps its first 24 channels and loses its name; one of at
      most 24 channels comes back equal to itself. */
  lemma RawRoundTrip(l: ChannelLayout)
    ensures WellFormedRaw(RawOf(l))
    ensures FromRaw(RawOf(l)) == ChannelLayout("", l.channels[..Min(|l.channels|, MaxChannels)])
    ensures Equal(FromRaw(RawOf(l)), l) <==> |l.channels| <= MaxChannels
  {
    var back := FromRaw(RawOf(l));
    var n := Min(|l.channels|, MaxChannels);
    forall i | 0 <= i < n
      ensures back.channels[i] == l.channels[i]
    {
      Channels.ChannelRoundTrip(l.channels[i]);
    }
    assert back.channels == l.channels[..n];
  }

  /** A raw layout read and then written back keeps its count (when it is a count libsoundio can hold) and
      the ids in the slots it counts. */
  lemma LayoutRawRoundTrip(r: RawChannelLayout)
    requires WellFormedRaw(r) && 0 <= r.channelCount <= MaxChannels
    ensures RawOf(FromRaw(r)).channelCount == r.channelCount
    ensures RawOf(FromRaw(r)).channels[..r.channelCount] == r.channels[..r.channelCount]
  {
    var back := RawOf(FromRaw(r));
    forall i | 0 <= i < r.channelCount
      ensures back.channels[i] == r.channels[i]
    {
      Channels.RawChannelRoundTrip(r.channels[i]);
    }
  }

  /** The example of the doc comment of `PartialEq`: two layouts that differ only in their names are
      equal, and equality is an equivalence that only the channels decide. */
  lemma EqualIgnoresName(a: ChannelLayout, b: ChannelLayout, c: ChannelLayout, name: string)
    ensures Equal(a, a.(name := name))
    ensures Equal(a, b) ==> Equal(b, a)
    ensures Equal(a, b) && Equal(b, c) ==> Equal(a, c)
    ensures Equal(ChannelLayout("unimportant", [Channels.FrontLeft, Channels.FrontRight]),
                  ChannelLayout("doesn't matter", [Channels.FrontLeft, Channels.FrontRight]))
    ensures !Equal(ChannelLayout("", [Channels.FrontLeft, Channels.FrontRight]),
                   ChannelLayout("", [Channels.FrontRight, Channels.FrontLeft]))
  {
    var s := [Channels.FrontRight, Channels.FrontLeft];
    assert s[0] == Channels.FrontRight;
  }

  /** `Vec::contains` under `PartialEq`. */
  predicate Contains(layouts: seq<ChannelLayout>, l: ChannelLayout)
    ensures l in layouts ==> Contains(layouts, l)
    ensures Contains(layouts, l) ==> exists j :: 0 <= j < |layouts| && layouts[j].channels == l.channels
    ensures |layouts| == 0 ==> !Contains(layouts, l)
  {
    exists j :: 0 <= j < |layouts| && Equal(layouts[j], l)
  }

  /** `best_matching_channel_layout`: the first preferred layout that some available layout equals. */
  method BestMatching(preferred: seq<ChannelLayout>, available: seq<ChannelLayout>) returns (r: Option<ChannelLayout>)
    ensures r.None? <==> forall i :: 0 <= i < |preferred| ==> !Contains(available, preferred[i])
    ensures r.Some? ==> exists i :: (0 <= i < |preferred| && r.value == preferred[i] && Contains(available, preferred[i])
      && forall k :: 0 <= k < i ==> !Contains(available, preferred[k]))
  {
    for i := 0 to |preferred|
      invariant forall k :: 0 <= k < i ==> !Contains(available, preferred[k])
    {
      if Contains(available, preferred[i]) {
        return Some(preferred[i]);
      }
    }
    return None;
  }

  /** `Iterator::position`: the index of the first occurrence of `x`. */
  function Position<T(==)>(s: seq<T>, x: T): (r: Option<nat>)
    ensures r.None? <==> x !in s
    ensures r.Some? ==> r.value < |s| && s[r.value] == x && x !in s[..r.value]
  {
    if |s| == 0 then None
    else if s[0] == x then Some(0)
    else match Position(s[1..], x)
      case None => None
      case Some(k) =>
        assert s[1..][..k] == s[1..k + 1];
        Some(k + 1)
  }

  /** `find_channel`: the index of the first slot that holds `c`, or none when no slot does. */
  function FindChannel(l: ChannelLayout, c: Channels.ChannelId): (r: Option<nat>)
    ensures r.None? <==> c !in l.channels
    ensures r.Some? ==> (r.value < |l.channels| && l.channels[r.value] == c
      && forall k :: 0 <= k < r.value ==> l.channels[k] != c)
  {
    var r := Position(l.channels, c);
    if r.Some? then
      assert forall k :: 0 <= k < r.value ==> l.channels[k] in l.channels[..r.value];
      r
    else r
  }

  /** The example of the doc comment of `find_channel`, on the built-in stereo layout. */
  lemma FindChannelExample()
    ensures var stereo := ChannelLayout("Stereo", [Channels.FrontLeft, Channels.FrontRight]);
      FindChannel(stereo, Channels.FrontLeft) == Some(0) && FindChannel(stereo, Channels.FrontCenter) == None
  {
    var s := [Channels.FrontLeft, Channels.FrontRight];
    assert s[0] == Channels.FrontLeft && s[1] == Channels.FrontRight;
    assert Channels.FrontCenter !in s;
  }

  // ---------------------------------------------------------------- sort

  /** The sort key of `sort`. */
  function Key(l: ChannelLayout): nat {
    |l.channels|
  }

  /** What the doctest of `sort` checks: each layout has at least as many channels as the one before. */
  predicate Sorted(s: seq<ChannelLayout>) {
    forall i :: 0 < i < |s| ==> Key(s[i - 1]) <= Key(s[i])
  }

  /** The layouts of `s` with `n` channels, in their order in `s`. A sort by key that leaves every such
      group as it was is exactly a stable sort. */
  function Group(s: seq<ChannelLayout>, n: nat): (g: seq<ChannelLayout>)
    ensures |g| <= |s|
  {
    if |s| == 0 then [] else (if Key(s[0]) == n then [s[0]] else []) + Group(s[1..], n)
  }

  lemma {:induction false} GroupOfAppend(a: seq<ChannelLayout>, b: seq<ChannelLayout>, n: nat)
    ensures Group(a + b, n) == Group(a, n) + Group(b, n)
    decreases |a|
  {
    if |a| > 0 {
      assert (a + b)[0] == a[0] && (a + b)[1..] == a[1..] + b;
      GroupOfAppend(a[1..], b, n);
    } else {
      assert a + b == b;
    }
  }

  /** Exchanging two neighbours of different keys leaves every group as it was. */
  lemma SwapKeepsGroups(s: seq<ChannelLayout>, t: seq<ChannelLayout>, j: nat)
    requires 0 < j < |s| && Key(s[j - 1]) != Key(s[j])
    requires t == s[j - 1 := s[j]][j := s[j - 1]]
    ensures forall n :: Group(t, n) == Group(s, n)
  {
    var pre, post := s[..j - 1], s[j + 1..];
    assert s == pre + [s[j - 1], s[j]] + post;
    assert t == pre + [s[j], s[j - 1]] + post;
    forall n
      ensures Group(t, n) == Group(s, n)
    {
      GroupOfAppend(pre + [s[j - 1], s[j]], post, n);
      GroupOfAppend(pre, [s[j - 1], s[j]], n);
      GroupOfAppend(pre + [s[j], s[j - 1]], post, n);
      GroupOfAppend(pre, [s[j], s[j - 1]], n);
      GroupOfAppend([s[j - 1]], [s[j]], n);
      GroupOfAppend([s[j]], [s[j - 1]], n);
    }
  }

  lemma {:induction false} CountInGroup(s: seq<ChannelLayout>, x: ChannelLayout)
    ensures multiset(s)[x] == multiset(Group(s, Key(x)))[x]
  {
    if |s| > 0 {
      assert s == [s[0]] + s[1..];
      CountInGroup(s[1..], x);
    }
  }

  /** Sequences with the same groups are permutations of each other. */
  lemma GroupsArePermutation(s: seq<ChannelLayout>, t: seq<ChannelLayout>)
    requires forall n :: Group(s, n) == Group(t, n)
    ensures multiset(s) == multiset(t)
  {
    forall x
      ensures multiset(s)[x] == multiset(t)[x]
    {
      CountInGroup(s, x);
      CountInGroup(t, x);
      assert Group(s, Key(x)) == Group(t, Key(x));
    }
  }

  /** The first `i` layouts of `s` are in order. */
  predicate SortedUpTo(s: seq<ChannelLayout>, i: nat) {
    forall p :: 0 < p < i && p < |s| ==> Key(s[p - 1]) <= Key(s[p])
  }

  /** `ChannelLayout::sort`: `sort_by` channel count, which is a stable sort, in ascending order (which is
      what the code and its doctest do; the doc comment says "descending"). Modelled as an insertion sort by
      neighbour exchanges. */
  method Sort(a: array<ChannelLayout>)
    modifies a
    ensures Sorted(a[..])
    ensures forall n :: Group(a[..], n) == Group(old(a[..]), n)
    ensures multiset(a[..]) == multiset(old(a[..]))
  {
    for i := 0 to a.Length
      invariant SortedUpTo(a[..], i)
      invariant forall n :: Group(a[..], n) == Group(old(a[..]), n)
    {
      Insert(a, i);
    }
    GroupsArePermutation(a[..], old(a[..]));
  }

  /** One step of the insertion sort: moves `a[i]` down past the layouts with more channels. */
  method Insert(a: array<ChannelLayout>, i: nat)
    requires i < a.Length && SortedUpTo(a[..], i)
    modifies a
    ensures SortedUpTo(a[..], i + 1)
    ensures forall n :: Group(a[..], n) == Group(old(a[..]), n)
  {
    var j := i;
    while j > 0 && Key(a[j - 1]) > Key(a[j])
      invariant 0 <= j <= i
      invariant forall p :: 0 < p <= i && p != j ==> Key(a[p - 1]) <= Key(a[p])
      invariant 0 < j < i ==> Key(a[j - 1]) <= Key(a[j + 1])
      invariant forall n :: Group(a[..], n) == Group(old(a[..]), n)
    {
      ghost var before := a[..];
      a[j - 1], a[j] := a[j], a[j - 1];
      SwapKeepsGroups(before, a[..], j);
      j := j - 1;
    }
  }

  // ---------------------------------------------------------------- built-in layout ids

  datatype ChannelLayoutId =
    | Mono
    | Stereo
    | C2Point1
    | C3Point0
    | C3Point0Back
    | C3Point1
    | C4Point0
    | Quad
    | QuadSide
    | C4Point1
    | C5Point0Back
    | C5Point0Side
    | C5Point1
    | C5Point1Back
    | C6Point0Side
    | C6Point0Front
    | Hexagonal
    | C6Point1
    | C6Point1Back
    | C6Point1Front
    | C7Point0
    | C7Point0Front
    | C7Point1
    | C7Point1Wide
    | C7Point1WideBack
    | Octagonal

  /** A `SoundIoChannelLayoutId` value: its C ordinal. */
  type RawChannelLayoutId = x: int | 0 <= x < 26

  /** The variants of `SoundIoChannelLayoutId` in declaration order (libsoundio-sys/lib.rs:171-198). */
  const RawLayoutOrder: seq<ChannelLayoutId> := [Mono, Stereo, C2Point1, C3Point0, C3Point0Back, C3Point1,
    C4Point0, Quad, QuadSide, C4Point1, C5Point0Back, C5Point0Side, C5Point1, C5Point1Back, C6Point0Side,
    C6Point0Front, Hexagonal, C6Point1, C6Point1Back, C6Point1Front, C7Point0, C7Point0Front, C7Point1,
    C7Point1Wide, C7Point1WideBack, Octagonal]

  /** `impl From<raw::SoundIoChannelLayoutId> for ChannelLayoutId`. */
  function LayoutIdFromRaw(n: RawChannelLayoutId): (id: ChannelLayoutId)
    ensures id == RawLayoutOrder[n]
  {
    match n
    case 0 => Mono
    case 1 => Stereo
    case 2 => C2Point1
    case 3 => C3Point0
    case 4 => C3Point0Back
    case 5 => C3Point1
    case 6 => C4Point0
    case 7 => Quad
    case 8 => QuadSide
    case 9 => C4Point1
    case 10 => C5Point0Back
    case 11 => C5Point0Side
    case 12 => C5Point1
    case 13 => C5Point1Back
    case 14 => C6Point0Side
    case 15 => C6Point0Front
    case 16 => Hexagonal
    case 17 => C6Point1
    case 18 => C6Point1Back
    case 19 => C6Point1Front
    case 20 => C7Point0
    case 21 => C7Point0Front
    case 22 => C7Point1
    case 23 => C7Point1Wide
    case 24 => C7Point1WideBack
    case _ => Octagonal
  }

  /** `impl From<ChannelLayoutId> for raw::SoundIoChannelLayoutId`. */
  function LayoutIdToRaw(id: ChannelLayoutId): (n: RawChannelLayoutId)
    ensures RawLayoutOrder[n] == id
  {
    match id
    case Mono => 0
    case Stereo => 1
    case C2Point1 => 2
    case C3Point0 => 3
    case C3Point0Back => 4
    case C3Point1 => 5
    case C4Point0 => 6
    case Quad => 7
    case QuadSide => 8
    case C4Point1 => 9
    case C5Point0Back => 10
    case C5Point0Side => 11
    case C5Point1 => 12
    case C5Point1Back => 13
    case C6Point0Side => 14
    case C6Point0Front => 15
    case Hexagonal => 16
    case C6Point1 => 17
    case C6Point1Back => 18
    case C6Point1Front => 19
    case C7Point0 => 20
    case C7Point0Front => 21
    case C7Point1 => 22
    case C7Point1Wide => 23
    case C7Point1WideBack => 24
    case Octagonal => 25
  }

  lemma LayoutIdRoundTrip(id: ChannelLayoutId)
    ensures LayoutIdFromRaw(LayoutIdToRaw(id)) == id
  {
  }

  lemma RawLayoutIdRoundTrip(n: RawChannelLayoutId)
    ensures LayoutIdToRaw(LayoutIdFromRaw(n)) == n
  {
  }
}
