/**
 * The canonical strings that internal calls are signed over. Three different
 * constructions exist side by side and are kept apart here:
 *   - the outbound signers (the internal HTTP client and the edge's audit client)
 *     join six fields, the body hash included;
 *   - the inbound middleware joins five fields and has no body hash;
 *   - the end-to-end test of the verification service signs five fields with
 *     the body hash but no e-mail slot.
 */
module Signing {
  import opened Wrappers
  import opened Js
  import opened Text

  /** The outbound six-field canonical string. */
  function OutboundCanonical(verb: string, path: string, timestamp: string, bodyHash: string,
                             userId: Option<string>, userEmail: Option<string>): string
  {
    Join("\n", OutboundFields(verb, path, timestamp, bodyHash, userId, userEmail))
  }

  function OutboundFields(verb: string, path: string, timestamp: string, bodyHash: string,
                          userId: Option<string>, userEmail: Option<string>): seq<string>
  {
    [Upper(verb), path, timestamp, bodyHash, OrEmpty(userId), OrEmpty(userEmail)]
  }

  /** `generateHmacSignature` of the outbound signers: hex HMAC-SHA256 of the six-field string. */
  function OutboundSignature(n: Natives, secret: string, verb: string, path: string, timestamp: string,
                             bodyHash: string, userId: Option<string>, userEmail: Option<string>): string
  {
    n.hmacSha256Hex(secret, OutboundCanonical(verb, path, timestamp, bodyHash, userId, userEmail))
  }

  /** The inbound middleware's five-field canonical string: no body hash. */
  function GateFields(verb: string, fullPath: string, timestamp: string,
                      userId: Option<string>, userEmail: Option<string>): seq<string>
  {
    [Upper(verb), fullPath, timestamp, OrEmpty(userId), OrEmpty(userEmail)]
  }

  function GateCanonical(verb: string, fullPath: string, timestamp: string,
                         userId: Option<string>, userEmail: Option<string>): string
  {
    Join("\n", GateFields(verb, fullPath, timestamp, userId, userEmail))
  }

  /** The end-to-end test's five-field string: the method as given, a body hash, a user id, no e-mail. */
  function E2eFields(verb: string, path: string, timestamp: string, bodyHash: string, userId: string): seq<string>
  {
    [verb, path, timestamp, bodyHash, userId]
  }

  /** HMAC under one secret never maps two messages to one signature (a hypothesis, never assumed). */
  ghost predicate HmacInjective(n: Natives, secret: string) {
    forall m1, m2 :: n.hmacSha256Hex(secret, m1) == n.hmacSha256Hex(secret, m2) ==> m1 == m2
  }

  /** SHA-256 never maps two texts to one digest (a hypothesis, never assumed). */
  ghost predicate ShaInjective(n: Natives) {
    forall s1, s2 :: n.sha256Hex(s1) == n.sha256Hex(s2) ==> s1 == s2
  }

  /** JSON.stringify never maps two values to one text (a hypothesis, never assumed). */
  ghost predicate StringifyInjective(n: Natives) {
    forall v1, v2 :: n.stringify(v1) == n.stringify(v2) ==> v1 == v2
  }

  lemma UpperKeepsNoNewline(s: string)
    requires NoNewline(s)
    ensures NoNewline(Upper(s))
  {
  }

  lemma OrEmptyNoNewline(s: Option<string>)
    requires s.Some? ==> NoNewline(s.value)
    ensures NoNewline(OrEmpty(s))
  {
  }

  predicate OptNoNewline(s: Option<string>) {
    s.Some? ==> NoNewline(s.value)
  }

  /**
   * Tamper evidence of the outbound signature: when HMAC is injective and no
   * field holds a newline, equal signatures mean equal fields, so changing any
   * one signed field changes the signature.
   */
  lemma OutboundSignatureBindsFields(n: Natives, secret: string,
      m1: string, p1: string, t1: string, h1: string, u1: Option<string>, e1: Option<string>,
      m2: string, p2: string, t2: string, h2: string, u2: Option<string>, e2: Option<string>)
    requires HmacInjective(n, secret)
    requires NoNewline(m1) && NoNewline(p1) && NoNewline(t1) && NoNewline(h1) && OptNoNewline(u1) && OptNoNewline(e1)
    requires NoNewline(m2) && NoNewline(p2) && NoNewline(t2) && NoNewline(h2) && OptNoNewline(u2) && OptNoNewline(e2)
    requires OutboundSignature(n, secret, m1, p1, t1, h1, u1, e1) == OutboundSignature(n, secret, m2, p2, t2, h2, u2, e2)
    ensures Upper(m1) == Upper(m2) && p1 == p2 && t1 == t2 && h1 == h2
    ensures OrEmpty(u1) == OrEmpty(u2) && OrEmpty(e1) == OrEmpty(e2)
  {
    var f1 := OutboundFields(m1, p1, t1, h1, u1, e1);
    var f2 := OutboundFields(m2, p2, t2, h2, u2, e2);
    UpperKeepsNoNewline(m1); UpperKeepsNoNewline(m2);
    OrEmptyNoNewline(u1); OrEmptyNoNewline(u2); OrEmptyNoNewline(e1); OrEmptyNoNewline(e2);
    assert AllNoNewline(f1) && AllNoNewline(f2);
    JoinInjective(f1, f2);
  }

  /**
   * The outbound string and the middleware's string never coincide when no
   * field holds a newline: one has six fields, the other five.
   */
  lemma OutboundNeverMatchesGate(m1: string, p1: string, t1: string, h1: string, u1: Option<string>, e1: Option<string>,
                                 m2: string, p2: string, t2: string, u2: Option<string>, e2: Option<string>)
    requires NoNewline(m1) && NoNewline(p1) && NoNewline(t1) && NoNewline(h1) && OptNoNewline(u1) && OptNoNewline(e1)
    requires NoNewline(m2) && NoNewline(p2) && NoNewline(t2) && OptNoNewline(u2) && OptNoNewline(e2)
    ensures OutboundCanonical(m1, p1, t1, h1, u1, e1) != GateCanonical(m2, p2, t2, u2, e2)
  {
    var f1 := OutboundFields(m1, p1, t1, h1, u1, e1);
    var f2 := GateFields(m2, p2, t2, u2, e2);
    UpperKeepsNoNewline(m1); UpperKeepsNoNewline(m2);
    OrEmptyNoNewline(u1); OrEmptyNoNewline(u2); OrEmptyNoNewline(e1); OrEmptyNoNewline(e2);
    assert AllNoNewline(f1) && AllNoNewline(f2);
    if Join("\n", f1) == Join("\n", f2) {
      JoinInjective(f1, f2);
    }
  }

  /**
   * The test's string equals the middleware's only if the test's body hash
   * sits in the middleware's user-id slot and the test's user id in its
   * e-mail slot.
   */
  lemma E2eMatchesGateOnlyBySlotShift(m1: string, p1: string, t1: string, h1: string, u1: string,
                                      m2: string, p2: string, t2: string, u2: Option<string>, e2: Option<string>)
    requires NoNewline(m1) && NoNewline(p1) && NoNewline(t1) && NoNewline(h1) && NoNewline(u1)
    requires NoNewline(m2) && NoNewline(p2) && NoNewline(t2) && OptNoNewline(u2) && OptNoNewline(e2)
    requires Join("\n", E2eFields(m1, p1, t1, h1, u1)) == GateCanonical(m2, p2, t2, u2, e2)
    ensures m1 == Upper(m2) && p1 == p2 && t1 == t2
    ensures h1 == OrEmpty(u2) && u1 == OrEmpty(e2)
  {
    var f1 := E2eFields(m1, p1, t1, h1, u1);
    var f2 := GateFields(m2, p2, t2, u2, e2);
    assert AllNoNewline(f1) by {
      forall i | 0 <= i < 5 ensures NoNewline(f1[i]) {
        if i == 0 {} else if i == 1 {} else if i == 2 {} else if i == 3 {} else {}
      }
    }
    assert AllNoNewline(f2) by {
      UpperKeepsNoNewline(m2);
      OrEmptyNoNewline(u2);
      OrEmptyNoNewline(e2);
      forall i | 0 <= i < 5 ensures NoNewline(f2[i]) {
        if i == 0 {} else if i == 1 {} else if i == 2 {} else if i == 3 {} else {}
      }
    }
    JoinInjective(f1, f2);
    assert f1[3] == f2[3] && f1[4] == f2[4];
  }
}
