/** Program arguments packed into the fixed buffer of a request and unpacked from it by the agent. */
module Marshal {
  import opened Wire

  const MAX_STR_LEN: nat := 128

  /** A C string without its terminator. */
  predicate NulFree(s: seq<byte>) { 0 !in s }

  /** The arguments one after the other, each with its terminator. */
  function Joined(argv: seq<seq<byte>>): seq<byte> {
    if argv == [] then [] else Joined(argv[..|argv| - 1]) + argv[|argv| - 1] + [0]
  }

  function ZerosOf(n: nat): (z: seq<byte>)
    ensures |z| == n && forall i :: 0 <= i < n ==> z[i] == 0
  {
    seq(n, _ => 0)
  }

  /** The buffer a request carries. */
  function Packed(argv: seq<seq<byte>>): (buf: seq<byte>)
    requires |Joined(argv)| <= MAX_STR_LEN
    ensures |buf| == MAX_STR_LEN
  {
    Joined(argv) + ZerosOf(MAX_STR_LEN - |Joined(argv)|)
  }

  /** The string that begins at an offset, up to the first terminator. */
  function StringAt(buf: seq<byte>, at: nat): seq<byte>
    decreases |buf| - at
  {
    if at >= |buf| || buf[at] == 0 then [] else [buf[at]] + StringAt(buf, at + 1)
  }

  /** The strings found by stepping over one terminator after the other. */
  function Unpacked(buf: seq<byte>, at: nat, argc: nat): seq<seq<byte>>
    decreases argc
  {
    if argc == 0 then [] else [StringAt(buf, at)] + Unpacked(buf, at + |StringAt(buf, at)| + 1, argc - 1)
  }

  // ---------------------------------------------------------------- the loops

  /** Copies a string and its terminator to an offset. */
  method StrCpy(buf: array<byte>, at: nat, s: seq<byte>)
    requires at + |s| + 1 <= buf.Length
    modifies buf
    ensures buf[..] == Store(old(buf[..]), at, s + [0])
  {
    for i := 0 to |s|
      invariant forall j :: 0 <= j < buf.Length ==> buf[j] == if at <= j < at + i then s[j - at] else old(buf[j])
    {
      buf[at + i] := s[i];
    }
    buf[at + |s|] := 0;
    assert buf[..] == Store(old(buf[..]), at, s + [0]);
  }

  method MarshalProgArg(argv: seq<seq<byte>>, buf: array<byte>)
    requires buf.Length == MAX_STR_LEN && |Joined(argv)| <= MAX_STR_LEN
    modifies buf
    ensures buf[..] == Packed(argv)
  {
    for i := 0 to MAX_STR_LEN
      invariant forall j :: 0 <= j < i ==> buf[j] == 0
    {
      buf[i] := 0;
    }
    var offset := 0;
    for idx := 0 to |argv|
      invariant offset == |Joined(argv[..idx])| <= MAX_STR_LEN
      invariant buf[..] == Joined(argv[..idx]) + ZerosOf(MAX_STR_LEN - offset)
    {
      JoinedStep(argv, idx);
      StrCpy(buf, offset, argv[idx]);
      offset := offset + |argv[idx]| + 1;
    }
    assert argv[..|argv|] == argv;
  }

  method StrLen(buf: array<byte>, at: nat) returns (n: nat)
    requires at <= buf.Length
    ensures n == |StringAt(buf[..], at)|
  {
    n := 0;
    while at + n < buf.Length && buf[at + n] != 0
      invariant at + n <= buf.Length
      invariant |StringAt(buf[..], at)| == n + |StringAt(buf[..], at + n)|
    {
      n := n + 1;
    }
  }

  /** The pointers the program is started with, as offsets into the buffer and a null at the end: each points into the
      buffer, at a string whose terminator is in the buffer too, the first at the beginning and each next one right
      behind the terminator of the one before. */
  method UnmarshalProgArg(buf: array<byte>, argc: nat) returns (argv: seq<Option<nat>>)
    requires InBuffer(buf[..], 0, argc)
    ensures |argv| == argc + 1 && argv[argc] == None && forall i :: 0 <= i < argc ==> argv[i].Some?
    ensures argc > 0 ==> argv[0] == Some(0)
    ensures forall i :: 0 <= i < argc ==> EndsInside(buf[..], argv[i].value)
    ensures forall i :: 0 <= i < argc - 1 ==>
              argv[i + 1].value == argv[i].value + |StringAt(buf[..], argv[i].value)| + 1
    ensures |Unpacked(buf[..], 0, argc)| == argc
    ensures forall i :: 0 <= i < argc ==>
              argv[i].value == OffsetOf(buf[..], i)
              && StringAt(buf[..], argv[i].value) == Unpacked(buf[..], 0, argc)[i]
  {
    hide StringAt, EndsInside, Unpacked, InBuffer, OffsetOf;
    argv := [];
    var offset := 0;
    OffsetSteps(buf[..], 0);
    for idx := 0 to argc
      invariant |argv| == idx && offset == OffsetOf(buf[..], idx)
      invariant forall i :: 0 <= i < idx ==> argv[i] == Some(OffsetOf(buf[..], i))
    {
      argv := argv + [Some(offset)];
      OffsetInside(buf[..], argc, idx);
      var n := StrLen(buf, offset);
      OffsetSteps(buf[..], idx);
      offset := offset + n + 1;
    }
    forall i | 0 <= i < argc
      ensures EndsInside(buf[..], OffsetOf(buf[..], i)) && |Unpacked(buf[..], 0, argc)| == argc
      ensures StringAt(buf[..], OffsetOf(buf[..], i)) == Unpacked(buf[..], 0, argc)[i]
    {
      OffsetInside(buf[..], argc, i);
    }
    UnpackedCount(buf[..], 0, argc);
    argv := argv + [None];
    forall i | 0 <= i < argc - 1
      ensures argv[i + 1].value == argv[i].value + |StringAt(buf[..], argv[i].value)| + 1
    {
      OffsetSteps(buf[..], i);
    }
  }

  /** Where string number `k` begins when one follows the other. */
  function OffsetOf(buf: seq<byte>, k: nat): nat {
    if k == 0 then 0 else OffsetOf(buf, k - 1) + |StringAt(buf, OffsetOf(buf, k - 1))| + 1
  }

  lemma OffsetSteps(buf: seq<byte>, k: nat)
    ensures OffsetOf(buf, 0) == 0
    ensures OffsetOf(buf, k + 1) == OffsetOf(buf, k) + |StringAt(buf, OffsetOf(buf, k))| + 1
  {
  }

  lemma {:induction false} UnpackedCount(buf: seq<byte>, at: nat, argc: nat)
    ensures |Unpacked(buf, at, argc)| == argc
    decreases argc
  {
    if argc > 0 {
      UnpackedCount(buf, at + |StringAt(buf, at)| + 1, argc - 1);
    }
  }

  /** The strings that are still to come, at the place of string number `k`. */
  lemma {:induction false} UnpackedRest(buf: seq<byte>, argc: nat, k: nat)
    requires InBuffer(buf, 0, argc) && k <= argc
    ensures |Unpacked(buf, 0, argc)| == argc
    ensures InBuffer(buf, OffsetOf(buf, k), argc - k)
    ensures Unpacked(buf, OffsetOf(buf, k), argc - k) == Unpacked(buf, 0, argc)[k..]
    decreases k
  {
    hide StringAt;
    UnpackedCount(buf, 0, argc);
    if k > 0 {
      UnpackedRest(buf, argc, k - 1);
      assert Unpacked(buf, OffsetOf(buf, k), argc - k) == Unpacked(buf, OffsetOf(buf, k - 1), argc - k + 1)[1..];
    }
  }

  lemma OffsetInside(buf: seq<byte>, argc: nat, k: nat)
    requires InBuffer(buf, 0, argc) && k < argc
    ensures EndsInside(buf, OffsetOf(buf, k)) && |Unpacked(buf, 0, argc)| == argc
    ensures OffsetOf(buf, k) < |buf| && StringAt(buf, OffsetOf(buf, k)) == Unpacked(buf, 0, argc)[k]
  {
    hide StringAt;
    UnpackedRest(buf, argc, k);
    StringEnds(buf, OffsetOf(buf, k));
    assert Unpacked(buf, OffsetOf(buf, k), argc - k)[0] == StringAt(buf, OffsetOf(buf, k));
  }

  /** The string at an offset has its terminator in the buffer. */
  predicate EndsInside(buf: seq<byte>, at: nat) {
    var end := at + |StringAt(buf, at)|;
    at <= end < |buf| && buf[end] == 0
    && forall k :: at <= k < end ==> buf[k] != 0 && buf[k] == StringAt(buf, at)[k - at]
  }

  lemma {:induction false} StringEnds(buf: seq<byte>, at: nat)
    requires at + |StringAt(buf, at)| < |buf|
    ensures EndsInside(buf, at)
    decreases |buf| - at
  {
    if buf[at] != 0 {
      StringEnds(buf, at + 1);
      assert StringAt(buf, at)[1..] == StringAt(buf, at + 1);
    }
  }

  /** Every one of the next `argc` strings has its terminator in the buffer. */
  predicate InBuffer(buf: seq<byte>, at: nat, argc: nat)
    decreases argc
  {
    argc == 0
    || (at + |StringAt(buf, at)| < |buf| && InBuffer(buf, at + |StringAt(buf, at)| + 1, argc - 1))
  }

  lemma {:induction false} JoinedStep(argv: seq<seq<byte>>, idx: nat)
    requires idx < |argv|
    ensures Joined(argv[..idx + 1]) == Joined(argv[..idx]) + argv[idx] + [0]
    ensures |Joined(argv[..idx + 1])| <= |Joined(argv)|
    decreases |argv|
  {
    assert argv[..idx + 1][..idx] == argv[..idx];
    if idx + 1 < |argv| {
      var n := |argv| - 1;
      JoinedStep(argv[..n], idx);
      assert argv[..n][..idx + 1] == argv[..idx + 1];
    } else {
      assert argv[..idx + 1] == argv;
    }
  }

  // ---------------------------------------------------------------- round trip

  lemma {:induction false} StringFound(pre: seq<byte>, s: seq<byte>, post: seq<byte>, k: nat)
    requires NulFree(s) && k <= |s|
    ensures StringAt(pre + s + [0] + post, |pre| + k) == s[k..]
    decreases |s| - k
  {
    var buf := pre + s + [0] + post;
    if k < |s| {
      assert buf[|pre| + k] == s[k];
      StringFound(pre, s, post, k + 1);
      assert s[k..] == [s[k]] + s[k + 1..];
    } else {
      assert buf[|pre| + k] == 0;
    }
  }

  /** Where the arguments from number `i` on are found behind those before. */
  lemma {:induction false} UnpackFrom(argv: seq<seq<byte>>, post: seq<byte>, i: nat)
    requires i <= |argv| && forall j :: 0 <= j < |argv| ==> NulFree(argv[j])
    ensures var buf, at := Joined(argv) + post, |Joined(argv[..i])|;
            Unpacked(buf, at, |argv| - i) == argv[i..] && InBuffer(buf, at, |argv| - i)
    decreases |argv| - i
  {
    hide Joined, StringAt;
    if i < |argv| {
      var buf, pre := Joined(argv) + post, Joined(argv[..i]);
      var rest := JoinedSplit(argv, i + 1);
      JoinedStep(argv, i);
      assert buf == pre + argv[i] + [0] + (rest + post);
      StringFound(pre, argv[i], rest + post, 0);
      UnpackFrom(argv, post, i + 1);
      assert argv[i..] == [argv[i]] + argv[i + 1..];
    }
  }

  lemma {:induction false} JoinedSplit(argv: seq<seq<byte>>, i: nat) returns (rest: seq<byte>)
    requires i <= |argv|
    ensures Joined(argv) == Joined(argv[..i]) + rest
    decreases |argv|
  {
    if i == |argv| {
      assert argv[..i] == argv;
      rest := [];
    } else {
      var n := |argv| - 1;
      var r := JoinedSplit(argv[..n], i);
      assert argv[..n][..i] == argv[..i];
      rest := r + argv[n] + [0];
      assert Joined(argv) == Joined(argv[..i]) + rest;
    }
  }

  /** Unpacking with the same count gives the arguments back, empty ones included. */
  lemma RoundTrip(argv: seq<seq<byte>>)
    requires |Joined(argv)| <= 128 && forall j :: 0 <= j < |argv| ==> NulFree(argv[j])
    ensures |Packed(argv)| == 128
    ensures Unpacked(Packed(argv), 0, |argv|) == argv && InBuffer(Packed(argv), 0, |argv|)
  {
    UnpackFrom(argv, ZerosOf(MAX_STR_LEN - |Joined(argv)|), 0);
    assert argv[..0] == [] && argv[0..] == argv;
  }

  /** The length of the first `i` arguments, each with its terminator. */
  function Before(argv: seq<seq<byte>>, i: nat): nat
    requires i <= |argv|
  {
    if i == 0 then 0 else Before(argv, i - 1) + |argv[i - 1]| + 1
  }

  lemma {:induction false} JoinedLength(argv: seq<seq<byte>>, i: nat)
    requires i <= |argv|
    ensures |Joined(argv[..i])| == Before(argv, i)
  {
    if i > 0 {
      JoinedLength(argv, i - 1);
      assert argv[..i][..i - 1] == argv[..i - 1];
    }
  }

  /** In a packed buffer argument number `i` lies behind those before it and their terminators, and is what is read
      there. */
  lemma {:induction false} PackedOffset(argv: seq<seq<byte>>, i: nat)
    requires |Joined(argv)| <= 128 && forall j :: 0 <= j < |argv| ==> NulFree(argv[j])
    requires i < |argv|
    ensures OffsetOf(Packed(argv), i) == Before(argv, i) && StringAt(Packed(argv), Before(argv, i)) == argv[i]
    decreases i
  {
    hide StringAt;
    if i > 0 {
      PackedOffset(argv, i - 1);
    }
    var pre, zeros := Joined(argv[..i]), ZerosOf(MAX_STR_LEN - |Joined(argv)|);
    JoinedLength(argv, i);
    JoinedStep(argv, i);
    var rest := JoinedSplit(argv, i + 1);
    assert Packed(argv) == pre + argv[i] + [0] + (rest + zeros);
    StringFound(pre, argv[i], rest + zeros, 0);
  }
}
