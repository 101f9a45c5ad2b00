/**
 * Room codes: the alphabet, the shape of a code, and how one attempt of
 * `generateRoomId` turns five values of `Math.random()` into a code.
 * The randomness is an input: a roll is the value `Math.random()` returned,
 * a real number in [0, 1).
 */
module Codes {

  /** The unambiguous alphabet (no 0/O, no 1/I). */
  const Alphabet: string := "ABCDEFGHJKLMNPQRSTUVWXYZ23456789"

  const CodeLength: nat := 5

  /** A code `generateRoomId` can return: five characters of `Alphabet`. */
  predicate IsCode(c: string) {
    |c| == CodeLength && forall i :: 0 <= i < |c| ==> c[i] in Alphabet
  }

  /** A value `Math.random()` can return. */
  predicate IsRoll(r: real) { 0.0 <= r < 1.0 }

  predicate IsAttempt(rolls: seq<real>) {
    |rolls| == CodeLength && forall i :: 0 <= i < |rolls| ==> IsRoll(rolls[i])
  }

  /** `Math.floor(Math.random() * chars.length)`. The product is exact in
      double precision because `chars.length` is a power of two. */
  function RollIndex(r: real): (k: nat)
    requires IsRoll(r)
    ensures k < |Alphabet|
    ensures k as real <= r * |Alphabet| as real < k as real + 1.0
  {
    (r * |Alphabet| as real).Floor
  }

  /** `chars.charAt(...)` of one roll. */
  function CharOfRoll(r: real): (c: char)
    requires IsRoll(r)
    ensures c in Alphabet
  {
    Alphabet[RollIndex(r)]
  }

  /** The code one attempt builds: character `i` comes from roll `i`. */
  function CodeOf(rolls: seq<real>): (c: string)
    requires IsAttempt(rolls)
    ensures IsCode(c)
    ensures forall i :: 0 <= i < |rolls| ==> c[i] == CharOfRoll(rolls[i])
  {
    seq(CodeLength, i requires 0 <= i < CodeLength => CharOfRoll(rolls[i]))
  }

  /** The loop of `generateRoomId` that appends one character per roll. */
  method DrawCode(rolls: seq<real>) returns (id: string)
    requires IsAttempt(rolls)
    ensures IsCode(id) && id == CodeOf(rolls)
    ensures forall i :: 0 <= i < |rolls| ==> id[i] == CharOfRoll(rolls[i])
  {
    id := "";
    ghost var code := CodeOf(rolls);
    for i := 0 to CodeLength
      invariant id == code[..i]
    {
      id := id + [CharOfRoll(rolls[i])];
      assert code[..i + 1] == code[..i] + [code[i]];
    }
    assert code[..CodeLength] == code;
  }

  predicate AllAttempts(attempts: seq<seq<real>>) {
    forall k :: 0 <= k < |attempts| ==> IsAttempt(attempts[k])
  }

  /** Some attempt yields a code not yet in use: the random source does
      eventually produce a fresh code. */
  predicate HasFreeAttempt(taken: set<string>, attempts: seq<seq<real>>)
    requires AllAttempts(attempts)
  {
    exists k :: 0 <= k < |attempts| && CodeOf(attempts[k]) !in taken
  }

  /** The code `generateRoomId` returns when its successive attempts draw
      `attempts`: the first one that is not already taken. */
  function FirstFreeCode(taken: set<string>, attempts: seq<seq<real>>): (c: string)
    requires AllAttempts(attempts) && HasFreeAttempt(taken, attempts)
    ensures IsCode(c) && c !in taken
    ensures exists k :: 0 <= k < |attempts| && c == CodeOf(attempts[k])
                        && forall j :: 0 <= j < k ==> CodeOf(attempts[j]) in taken
  {
    var c := CodeOf(attempts[0]);
    if c in taken then
      FreeInTail(taken, attempts);
      var r := FirstFreeCode(taken, attempts[1..]);
      FirstInTail(taken, attempts, r);
      r
    else c
  }

  lemma FreeInTail(taken: set<string>, attempts: seq<seq<real>>)
    requires AllAttempts(attempts) && HasFreeAttempt(taken, attempts)
    requires CodeOf(attempts[0]) in taken
    ensures AllAttempts(attempts[1..]) && HasFreeAttempt(taken, attempts[1..])
  {
    var k :| 0 <= k < |attempts| && CodeOf(attempts[k]) !in taken;
    assert attempts[1..][k - 1] == attempts[k];
  }

  lemma FirstInTail(taken: set<string>, attempts: seq<seq<real>>, r: string)
    requires AllAttempts(attempts) && |attempts| > 0 && CodeOf(attempts[0]) in taken
    requires AllAttempts(attempts[1..])
    requires exists k :: 0 <= k < |attempts[1..]| && r == CodeOf(attempts[1..][k])
                         && forall j :: 0 <= j < k ==> CodeOf(attempts[1..][j]) in taken
    ensures exists k :: 0 <= k < |attempts| && r == CodeOf(attempts[k])
                        && forall j :: 0 <= j < k ==> CodeOf(attempts[j]) in taken
  {
    var k :| 0 <= k < |attempts[1..]| && r == CodeOf(attempts[1..][k])
             && forall j :: 0 <= j < k ==> CodeOf(attempts[1..][j]) in taken;
    assert attempts[1..][k] == attempts[k + 1];
    forall j | 0 <= j < k + 1 ensures CodeOf(attempts[j]) in taken {
      if j > 0 { assert attempts[j] == attempts[1..][j - 1]; }
    }
  }
}
