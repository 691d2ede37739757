/** Anonymous device identifiers: 32 lower-case hexadecimal characters,
    generated from random draws and kept in the browser's key-value storage. */
module DeviceUtils {

  const Alphabet: string := "abcdef0123456789"
  const IdLength: nat := 32
  const StorageKey: string := "gesture_game_device_id"

  predicate IsHexChar(c: char)
  {
    'a' <= c <= 'f' || '0' <= c <= '9'
  }

  /** Scans the string character by character, as the anchored pattern
      `[a-f0-9]` repeated does. */
  function AllHex(s: string): (b: bool)
    ensures b <==> forall i :: 0 <= i < |s| ==> IsHexChar(s[i])
  {
    if s == [] then true else IsHexChar(s[0]) && AllHex(s[1..])
  }

  /** Exactly 32 characters, each a-f or 0-9. */
  function ValidateDeviceId(s: string): (b: bool)
    ensures b <==> |s| == IdLength && forall i :: 0 <= i < |s| ==> IsHexChar(s[i])
  {
    |s| == IdLength && AllHex(s)
  }

  predicate UnitDraws(draws: seq<real>)
  {
    forall i :: 0 <= i < |draws| ==> 0.0 <= draws[i] < 1.0
  }

  /** The character a draw r in [0,1) selects: position floor(16 r) of the alphabet. */
  function PickChar(r: real): (c: char)
    requires 0.0 <= r < 1.0
    ensures IsHexChar(c)
    ensures c == Alphabet[(r * 16.0).Floor]
  {
    var k := (r * 16.0).Floor;
    assert 0 <= k < 16;
    Alphabet[k]
  }

  /** The identifier a sequence of draws produces. */
  function GeneratedId(draws: seq<real>): (id: string)
    requires UnitDraws(draws)
    ensures |id| == |draws|
    ensures forall i :: 0 <= i < |draws| ==> id[i] == PickChar(draws[i])
    ensures |draws| == IdLength ==> ValidateDeviceId(id)
  {
    seq(|draws|, i requires 0 <= i < |draws| && UnitDraws(draws) => PickChar(draws[i]))
  }

  /** Builds the identifier one character per draw. */
  method GenerateDeviceId(draws: seq<real>) returns (id: string)
    requires |draws| == IdLength && UnitDraws(draws)
    ensures id == GeneratedId(draws)
    ensures ValidateDeviceId(id)
  {
    id := "";
    for i := 0 to IdLength
      invariant id == GeneratedId(draws[..i])
    {
      id := id + [PickChar(draws[i])];
    }
    assert draws[..IdLength] == draws;
  }

  /** Position of a hexadecimal character in the alphabet. */
  function AlphabetIndex(c: char): (k: nat)
    requires IsHexChar(c)
    ensures k < 16 && Alphabet[k] == c
  {
    if 'a' <= c <= 'f' then (c as int - 'a' as int) else 6 + (c as int - '0' as int)
  }

  /** Conversely every valid identifier is the output for some draws, so the
      generator covers exactly the validator's language. */
  lemma EveryValidIdGenerated(s: string)
    requires ValidateDeviceId(s)
    ensures var draws := seq(IdLength, i requires 0 <= i < IdLength => AlphabetIndex(s[i]) as real / 16.0);
            UnitDraws(draws) && GeneratedId(draws) == s
  {
    var draws := seq(IdLength, i requires 0 <= i < IdLength => AlphabetIndex(s[i]) as real / 16.0);
    forall i | 0 <= i < IdLength
      ensures 0.0 <= draws[i] < 1.0 && PickChar(draws[i]) == s[i]
    {
      var k := AlphabetIndex(s[i]);
      assert draws[i] * 16.0 == k as real;
    }
  }

  /** The browser storage the identifier lives in. */
  class DeviceStore {
    var storage: map<string, string>

    constructor (initial: map<string, string>)
      ensures storage == initial
    {
      storage := initial;
    }

    /** Returns the stored identifier when it is valid, writing nothing;
        otherwise stores and returns a freshly generated one. */
    method GetOrCreateDeviceId(draws: seq<real>) returns (id: string)
      requires |draws| == IdLength && UnitDraws(draws)
      modifies this
      ensures ValidateDeviceId(id)
      ensures StorageKey in old(storage) && ValidateDeviceId(old(storage)[StorageKey]) ==>
                id == old(storage)[StorageKey] && storage == old(storage)
      ensures !(StorageKey in old(storage) && ValidateDeviceId(old(storage)[StorageKey])) ==>
                id == GeneratedId(draws) && storage == old(storage)[StorageKey := id]
    {
      var stored := if StorageKey in storage then storage[StorageKey] else "";
      if stored == "" || !ValidateDeviceId(stored) {
        id := GenerateDeviceId(draws);
        storage := storage[StorageKey := id];
      } else {
        id := stored;
      }
    }

    /** Removes the identifier and nothing else. */
    method ClearDeviceId()
      modifies this
      ensures storage == old(storage) - {StorageKey}
      ensures StorageKey !in storage
    {
      storage := storage - {StorageKey};
    }
  }
}
