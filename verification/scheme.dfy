/**
  Translation of an HTTP(S) origin scheme into the matching WebSocket scheme,
  as done before every dial of the device-connect endpoint.

  `https` becomes `wss`, `http` becomes `ws`, and every other scheme is passed
  through untouched, so a caller may already hand in `ws` or `wss`.
 */
module Scheme {

  const Https: string := "https"
  const Http: string := "http"
  const Wss: string := "wss"
  const Ws: string := "ws"

  /** True for the two web schemes that the translation rewrites. */
  predicate IsWebScheme(s: string) {
    s == Https || s == Http
  }

  /** The WebSocket scheme to dial for an origin of scheme `s`. */
  function WebSocketScheme(s: string): (r: string)
    ensures s == Https ==> r == Wss
    ensures s == Http ==> r == Ws
    ensures r == s <==> !IsWebScheme(s)
    ensures !IsWebScheme(r)
  {
    if s == Https then Wss
    else if s == Http then Ws
    else s
  }

  /** Translating twice is the same as translating once. */
  lemma Idempotent(s: string)
    ensures WebSocketScheme(WebSocketScheme(s)) == WebSocketScheme(s)
  {
  }

  /**
    The inverse image of every scheme: `wss` is reached from `https` and from
    itself, `ws` from `http` and from itself, a web scheme from nothing, and
    any other scheme only from itself.
   */
  lemma Preimage(s: string, t: string)
    ensures WebSocketScheme(s) == t <==>
      if t == Wss then s == Https || s == Wss
      else if t == Ws then s == Http || s == Ws
      else if IsWebScheme(t) then false
      else s == t
  {
  }

  /** The translation is onto the set of non-web schemes. */
  lemma Image(t: string)
    ensures (exists s :: WebSocketScheme(s) == t) <==> !IsWebScheme(t)
  {
    if !IsWebScheme(t) {
      assert WebSocketScheme(t) == t;
    }
  }
}
