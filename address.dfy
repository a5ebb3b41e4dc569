/** Normalisation of a destination number into the address format of the
    messaging library: the domain suffix is appended unless the number
    already contains it. */
module Address {

  /** The JID domain of the Baileys variant. */
  const JidDomain: string := "@s.whatsapp.net"

  /** The chat-id domain of the whatsapp-web.js variant. */
  const ChatDomain: string := "@c.us"

  predicate IsPrefix(p: string, s: string) {
    |p| <= |s| && s[..|p|] == p
  }

  /** JavaScript's `s.includes(sub)`: `sub` occurs somewhere in `s`
      (the empty string occurs in every string). */
  predicate Contains(s: string, sub: string)
    decreases |s|
  {
    IsPrefix(sub, s) || (|s| > 0 && Contains(s[1..], sub))
  }

  /** A string always contains every one of its suffixes. */
  lemma {:induction false} ContainsSuffix(s: string, t: string)
    ensures Contains(s + t, t)
    decreases |s|
  {
    if |s| == 0 {
      assert s + t == t;
      assert (s + t)[..|t|] == t;
    } else {
      ContainsSuffix(s[1..], t);
      assert (s + t)[1..] == s[1..] + t;
    }
  }

  /** `to.includes(domain) ? to : to + domain`. */
  function Normalize(to: string, domain: string): (r: string)
    ensures Contains(r, domain)
    ensures r == to <==> Contains(to, domain)
    ensures !Contains(to, domain) ==> r == to + domain
    ensures IsPrefix(to, r)
  {
    if Contains(to, domain) then
      to
    else
      ContainsSuffix(to, domain);
      assert (to + domain)[..|to|] == to;
      to + domain
  }

  /** Normalising an address that is already normalised changes nothing. */
  lemma NormalizeIdempotent(to: string, domain: string)
    ensures Normalize(Normalize(to, domain), domain) == Normalize(to, domain)
  {
  }
}
