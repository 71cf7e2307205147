/** Vectors of strings kept one after the other, each ended by a NUL, and the two ways to walk them. */
module Argz {

  const NUL: char := '\0'

  /** A char pointer: null, or so many characters after the start of the vector. */
  datatype Pointer = Null | At(offset: nat)

  /** Empty, or ended by a NUL. */
  predicate IsArgz(v: string) {
    v == "" || v[|v| - 1] == NUL
  }

  /** argz and argz_len: the pointer of an empty vector may be null or not. */
  predicate Vector(argz: Pointer, v: string) {
    IsArgz(v) && (argz == At(0) || (argz == Null && v == ""))
  }

  /** strchr (s, '\0') for a pointer `from` characters into v */
  function StrChr(v: string, from: nat): (r: nat)
    requires from < |v| && IsArgz(v)
    ensures from <= r < |v| && v[r] == '\0'
    ensures forall k :: from <= k < r ==> v[k] != '\0'
    decreases |v| - from
  {
    if v[from] == NUL then from else StrChr(v, from + 1)
  }

  /** __argz_next, where `argz` is the vector's pointer (At (0), or null for some empty vectors) */
  function Next(argz: Pointer, v: string, entry: Pointer): Pointer
    requires Vector(argz, v)
  {
    if entry.At? then
      var e := if entry.offset < |v| then StrChr(v, entry.offset) + 1 else entry.offset;
      if e >= |v| then Null else At(e)
    else
      if |v| > 0 then argz else Null
  }

  // ----- What a vector holds -----

  /** The strings of a vector. */
  function Decode(v: string): (r: seq<string>)
    requires IsArgz(v)
    decreases |v|
  {
    if v == "" then [] else [v[..StrChr(v, 0)]] + Decode(v[StrChr(v, 0) + 1..])
  }

  /** Where the strings from offset i on start; i itself is the start of one, or the end. */
  function Starts(v: string, i: nat): (r: seq<nat>)
    requires i <= |v| && IsArgz(v)
    decreases |v| - i
  {
    if i == |v| then [] else [i] + Starts(v, StrChr(v, i) + 1)
  }

  /** The vector of a list of strings. */
  function Encode(ss: seq<string>): string {
    if ss == [] then "" else ss[0] + [NUL] + Encode(ss[1..])
  }

  predicate NulFree(ss: seq<string>) {
    forall i :: 0 <= i < |ss| ==> NUL !in ss[i]
  }

  lemma StrChrIs(v: string, from: nat, r: nat)
    requires from <= r < |v| && IsArgz(v) && v[r] == NUL && forall i :: from <= i < r ==> v[i] != NUL
    ensures StrChr(v, from) == r
  {
    var q := StrChr(v, from);
    assert v[q] == NUL && v[r] == NUL;
  }

  lemma StrChrSuffix(v: string, i: nat)
    requires i < |v| && IsArgz(v)
    ensures IsArgz(v[i..]) && StrChr(v, i) == i + StrChr(v[i..], 0)
  {
    hide StrChr;
    var w, r := v[i..], StrChr(v, i);
    assert forall k :: 0 <= k < |w| ==> w[k] == v[i + k];
    StrChrIs(w, 0, r - i);
  }

  lemma DecodeStep(v: string, i: nat)
    requires i <= |v| && IsArgz(v)
    ensures IsArgz(v[i..])
    ensures i < |v| ==> Decode(v[i..]) == [v[i..StrChr(v, i)]] + Decode(v[StrChr(v, i) + 1..])
    ensures i == |v| ==> Decode(v[i..]) == []
  {
    hide StrChr, Decode;
    assert IsArgz(v[i..]) && (i == |v| ==> v[i..] == "");
    DecodeUnroll(v[i..]);
    if i < |v| {
      hide IsArgz;
      StrChrSuffix(v, i);
      SliceSuffix(v, i, StrChr(v, i));
    }
  }

  lemma DecodeUnroll(w: string)
    requires IsArgz(w)
    ensures Decode(w) == if w == "" then [] else [w[..StrChr(w, 0)]] + Decode(w[StrChr(w, 0) + 1..])
  {
  }

  lemma SliceSuffix(v: string, i: nat, r: nat)
    requires i <= r < |v|
    ensures v[i..][..r - i] == v[i..r] && v[i..][r - i + 1..] == v[r + 1..]
  {
  }

  lemma StartsStep(v: string, i: nat)
    requires i <= |v| && IsArgz(v)
    ensures Starts(v, i) == if i == |v| then [] else [i] + Starts(v, StrChr(v, i) + 1)
  {
  }

  // ----- Reading back what was written -----

  lemma {:induction false} EncodeIsArgz(ss: seq<string>)
    ensures IsArgz(Encode(ss)) && (ss != [] ==> Encode(ss) != "")
  {
    if ss != [] {
      EncodeIsArgz(ss[1..]);
    }
  }

  /** The vector of any strings without NULs decodes to those strings. */
  lemma {:induction false} DecodeEncode(ss: seq<string>)
    requires NulFree(ss)
    ensures IsArgz(Encode(ss)) && Decode(Encode(ss)) == ss
  {
    hide StrChr;
    EncodeIsArgz(ss);
    if ss != [] {
      var rest := Encode(ss[1..]);
      EncodeIsArgz(ss[1..]);
      DecodeEncode(ss[1..]);
      assert NUL !in ss[0];
      var v := ss[0] + [NUL] + rest;
      StrChrIs(v, 0, |ss[0]|);
      assert v[..|ss[0]|] == ss[0] && v[|ss[0]| + 1..] == rest;
    }
  }

  /** Entries and their NULs tile the vector: nothing is skipped, nothing is read twice. */
  lemma {:induction false} EncodeDecode(v: string)
    requires IsArgz(v)
    ensures Encode(Decode(v)) == v && NulFree(Decode(v))
    decreases |v|
  {
    hide StrChr, Decode;
    DecodeUnroll(v);
    if v != "" {
      hide Encode;
      var r := StrChr(v, 0);
      var rest := v[r + 1..];
      EncodeDecode(rest);
      EncodeCons(v[..r], Decode(rest));
      assert v[..r] + [NUL] + rest == v;
    }
  }

  lemma EncodeCons(s: string, ss: seq<string>)
    ensures Encode([s] + ss) == s + [NUL] + Encode(ss)
  {
    assert ([s] + ss)[1..] == ss;
  }

  /** Each entry starts one past the NUL of the one before it, the first at i, and the last NUL is the vector's. */
  lemma {:induction false} StartsTile(v: string, i: nat)
    requires i <= |v| && IsArgz(v)
    ensures IsArgz(v[i..]) && |Starts(v, i)| == |Decode(v[i..])|
    ensures var ss, ps := Decode(v[i..]), Starts(v, i);
            && (ps != [] ==> ps[0] == i && ps[|ps| - 1] + |ss[|ss| - 1]| + 1 == |v|)
            && (ps == [] <==> i == |v|)
            && forall k :: 0 < k < |ps| ==> ps[k] == ps[k - 1] + |ss[k - 1]| + 1
    decreases |v| - i
  {
    hide StrChr, Decode, Starts;
    DecodeStep(v, i);
    StartsStep(v, i);
    if i < |v| {
      StartsTile(v, StrChr(v, i) + 1);
    }
  }

  // ----- Walking -----

  /** From a pointer anywhere in an entry, argz_next goes to the start of the following one, or to null. */
  lemma NextFromInside(argz: Pointer, v: string, start: nat, e: nat)
    requires Vector(argz, v) && start < |v| && start <= e <= StrChr(v, start)
    ensures Next(argz, v, At(e)) == if StrChr(v, start) + 1 == |v| then Null else At(StrChr(v, start) + 1)
  {
    var r := StrChr(v, start);
    hide StrChr;
    StrChrIs(v, e, r);
  }

  /** From null it goes to the first entry, if there is any, and from the end or beyond to null. */
  lemma NextFromOutside(argz: Pointer, v: string, e: nat)
    requires Vector(argz, v)
    ensures Next(argz, v, Null) == if v == "" then Null else At(0)
    ensures |v| <= e ==> Next(argz, v, At(e)) == Null
  {
  }

  /** Where a pointer has got to; null is the end. */
  function Position(v: string, entry: Pointer): nat {
    if entry.At? then entry.offset else |v|
  }

  /** while ((entry = argz_next (argz, argz_len, entry))) ... */
  method WalkWhile(argz: Pointer, v: string) returns (visited: seq<nat>)
    requires Vector(argz, v)
    ensures visited == Starts(v, 0)
  {
    hide StrChr, Starts;
    visited := [];
    var entry := Next(argz, v, Null);
    StartsStep(v, |v|);
    while entry != Null
      invariant Position(v, entry) <= |v| && (entry.At? ==> entry.offset < |v|)
      invariant visited + Starts(v, Position(v, entry)) == Starts(v, 0)
      decreases |v| - Position(v, entry)
    {
      if entry.offset < |v| { StartsStep(v, entry.offset); }
      visited := visited + [entry.offset];
      entry := Next(argz, v, entry);
    }
  }

  /** What the other style visits. */
  function ForVisits(argz: Pointer, v: string): seq<nat>
    requires Vector(argz, v)
  {
    if v == "" && argz == At(0) then [0] else Starts(v, 0)
  }

  /** for (entry = argz; entry; entry = argz_next (argz, argz_len, entry)) ... */
  method WalkFor(argz: Pointer, v: string) returns (visited: seq<nat>)
    requires Vector(argz, v)
    ensures visited == ForVisits(argz, v)
  {
    hide StrChr, Starts;
    visited := [];
    var entry := argz;
    StartsStep(v, |v|);
    while entry != Null
      invariant Position(v, entry) <= |v| && (entry.At? && v != "" ==> entry.offset < |v|)
      invariant entry.At? && v == "" ==> visited == [] && argz == At(0)
      invariant entry == Null || v != "" ==> visited + Starts(v, Position(v, entry)) == ForVisits(argz, v)
      decreases |v| - Position(v, entry), if entry.At? then 1 else 0
    {
      if entry.offset < |v| { StartsStep(v, entry.offset); }
      visited := visited + [entry.offset];
      entry := Next(argz, v, entry);
    }
  }

  /** The two styles visit the same entries exactly when an empty vector has a null pointer. */
  method BothWalks(argz: Pointer, v: string) returns (w: seq<nat>, f: seq<nat>)
    requires Vector(argz, v)
    ensures w == Starts(v, 0) && f == ForVisits(argz, v)
    ensures w == f <==> v != "" || argz == Null
    ensures w != f ==> w == [] && f == [0]
  {
    w := WalkWhile(argz, v);
    f := WalkFor(argz, v);
  }

  lemma {:induction false} StartsWithin(v: string, i: nat, k: nat)
    requires i <= |v| && IsArgz(v) && k < |Starts(v, i)|
    ensures IsArgz(v[i..]) && k < |Decode(v[i..])| && Starts(v, i)[k] < |v|
    ensures Decode(v[i..])[k] == v[Starts(v, i)[k]..StrChr(v, Starts(v, i)[k])]
    decreases |v| - i
  {
    hide StrChr, Decode, Starts;
    DecodeStep(v, i);
    StartsStep(v, i);
    if k > 0 {
      StartsWithin(v, StrChr(v, i) + 1, k - 1);
    }
  }

  /** A walk over the vector of any list of NUL-free strings, which is to say over the starts that WalkWhile visits,
      reads back that list: one visit for each string, and from each place visited up to its NUL stands that string. */
  lemma ReadBack(ss: seq<string>)
    requires NulFree(ss)
    ensures var v := Encode(ss);
            && IsArgz(v)
            && |Starts(v, 0)| == |ss|
            && forall k :: 0 <= k < |ss| ==>
                 && Starts(v, 0)[k] < |v|
                 && v[Starts(v, 0)[k]..StrChr(v, Starts(v, 0)[k])] == ss[k]
  {
    hide StrChr, Decode, Starts, Encode;
    var v := Encode(ss);
    DecodeEncode(ss);
    assert v[0..] == v;
    StartsTile(v, 0);
    forall k | 0 <= k < |ss|
      ensures Starts(v, 0)[k] < |v| && v[Starts(v, 0)[k]..StrChr(v, Starts(v, 0)[k])] == ss[k]
    {
      StartsWithin(v, 0, k);
    }
  }

  /** The strings found at the places the while loop visits. */
  method ReadAll(argz: Pointer, v: string) returns (visited: seq<nat>, read: seq<string>)
    requires Vector(argz, v)
    ensures visited == Starts(v, 0) && read == Decode(v)
  {
    hide StrChr, Decode, Starts;
    visited := WalkWhile(argz, v);
    assert v[0..] == v;
    StartsTile(v, 0);
    read := [];
    for k := 0 to |visited|
      invariant |visited| == |Decode(v)| && read == Decode(v)[..k]
    {
      StartsWithin(v, 0, k);
      read := read + [v[visited[k]..StrChr(v, visited[k])]];
    }
  }
}
