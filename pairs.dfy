/**
 * Asset resolution and pair canonicalisation.
 *
 * Addresses are natural numbers. The zero address stands for the chain's
 * native coin; before a pair is keyed it is replaced by the address of the
 * wrapped-native token. A pair key lists the smaller identifier first, so
 * both argument orders name the same pool.
 */
module Pairs {

  /** The zero address: the native-coin sentinel. */
  const NATIVE: nat := 0

  /** A token reference with the native sentinel replaced by the wrapped address. */
  function Resolve(token: nat, wrapped: nat): nat
  {
    if token == NATIVE then wrapped else token
  }

  /**
   * A pair may be pooled only if its two sides resolve to different tokens:
   * this rejects a token with itself, native with native, and native with
   * its own wrapped form.
   */
  predicate ValidPair(token1: nat, token2: nat, wrapped: nat)
  {
    Resolve(token1, wrapped) != Resolve(token2, wrapped)
  }

  /** The registry key of a pair: both sides resolved, smallest first. */
  function Key(token1: nat, token2: nat, wrapped: nat): (k: (nat, nat))
    ensures k.0 <= k.1
    ensures k == (Resolve(token1, wrapped), Resolve(token2, wrapped))
         || k == (Resolve(token2, wrapped), Resolve(token1, wrapped))
  {
    var a, b := Resolve(token1, wrapped), Resolve(token2, wrapped);
    if a > b then (b, a) else (a, b)
  }

  /**
   * The canonicalisation as the caller of the factory performs it: translate
   * each native side to the wrapped address, then swap through a cached
   * temporary when the first identifier is the larger.
   */
  method CanonicalOrder(token1: nat, token2: nat, wrapped: nat) returns (first: nat, second: nat)
    ensures first <= second
    ensures (first, second) == (Resolve(token1, wrapped), Resolve(token2, wrapped))
         || (first, second) == (Resolve(token2, wrapped), Resolve(token1, wrapped))
    ensures (first, second) == Key(token1, token2, wrapped)
  {
    first, second := token1, token2;
    if token1 == NATIVE {
      first := wrapped;
    }
    if token2 == NATIVE {
      second := wrapped;
    }
    if first > second {
      var cached := first;
      first := second;
      second := cached;
    }
  }

  /** The key does not depend on the order in which the tokens are given. */
  lemma KeySymmetric(token1: nat, token2: nat, wrapped: nat)
    ensures Key(token1, token2, wrapped) == Key(token2, token1, wrapped)
  {
  }

  /** Native and wrapped forms of a token name the same key, on either side. */
  lemma KeyNativeIsWrapped(token: nat, wrapped: nat)
    ensures Key(NATIVE, token, wrapped) == Key(wrapped, token, wrapped)
    ensures Key(token, NATIVE, wrapped) == Key(token, wrapped, wrapped)
  {
  }

  /**
   * Two pairs share a key exactly when they resolve to the same two tokens,
   * in whatever order.
   */
  lemma KeyDeterminesPair(a1: nat, b1: nat, a2: nat, b2: nat, wrapped: nat)
    ensures Key(a1, b1, wrapped) == Key(a2, b2, wrapped)
        <==> (Resolve(a1, wrapped), Resolve(b1, wrapped)) == (Resolve(a2, wrapped), Resolve(b2, wrapped))
             || (Resolve(a1, wrapped), Resolve(b1, wrapped)) == (Resolve(b2, wrapped), Resolve(a2, wrapped))
  {
  }

  /**
   * The rejected pairs are exactly: a token with itself, and the native
   * sentinel with the wrapped address in either order.
   */
  lemma InvalidPairCases(token1: nat, token2: nat, wrapped: nat)
    requires wrapped != NATIVE
    ensures !ValidPair(token1, token2, wrapped)
        <==> token1 == token2
             || (token1 == NATIVE && token2 == wrapped)
             || (token1 == wrapped && token2 == NATIVE)
  {
  }

  /**
   * A valid pair has a strictly ordered key, and no key of a valid pair
   * holds the native sentinel.
   */
  lemma ValidKeyStrict(token1: nat, token2: nat, wrapped: nat)
    requires wrapped != NATIVE
    ensures ValidPair(token1, token2, wrapped) <==> Key(token1, token2, wrapped).0 < Key(token1, token2, wrapped).1
    ensures Key(token1, token2, wrapped).0 != NATIVE && Key(token1, token2, wrapped).1 != NATIVE
  {
  }
}
