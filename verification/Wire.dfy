/** The signed document, and the services of other programs that shape it. */
module Wire {
  import opened Basics
  import opened Semver
  import opened Tables

  /** One catalogue entry as instances parse it. */
  datatype Entry = Entry(id: string, listing: Listing, version: SemVer, manifest: Manifest,
                         translations: map<string, Text>)

  /** The document on the wire: `apps` is the very text the signature covers. */
  datatype Envelope = Envelope(generatedAt: string, keyId: string, apps: string, signature: string)

  datatype Snapshot = Snapshot(revision: nat, generatedAt: Time, etag: string, document: Envelope)

  datatype Signer = Signer(keyId: string, private: string)

  /** What the registry calls but does not define: semver and constraint parsing, the contract
      package's validators, the JSON encoder, RFC 3339, Ed25519 and SHA-256. Every law holds for
      any such functions. */
  datatype Rules = Rules(
    platform: string -> Option<SemVer>,
    constraint: string -> Option<SemVer -> bool>,
    manifestOk: Manifest -> bool,
    catalogOk: (seq<Entry>, string) -> bool,
    encode: seq<Entry> -> string,
    stamp: nat -> string,
    sign: (string, string) -> string,
    publicKey: string -> string,
    verify: (string, string, string) -> bool,
    etag: Envelope -> string,
    tokenDigest: string -> string)

  /** An empty constraint accepts every platform; one that does not parse accepts none. */
  function PlatformAllows(rules: Rules, constraint: string, platform: SemVer): bool
  {
    if constraint == "" then true
    else
      match rules.constraint(constraint)
      case None => false
      case Some(check) => check(platform)
  }

  /** The bytes a signature covers: the stamp, a newline, the apps array. */
  function SignedMessage(stamp: string, apps: string): string
  {
    stamp + "\n" + apps
  }

  function Sign(rules: Rules, signer: Signer, stamp: string, apps: string): string
  {
    rules.sign(signer.private, SignedMessage(stamp, apps))
  }

  /** The zero time stands for "no publication yet" and is served as the epoch. */
  function Served(newest: Time): Time
  {
    if newest == 0 then EPOCH else newest
  }

  function SignDocument(rules: Rules, signer: Signer, newest: Time, apps: seq<Entry>): (r: (Envelope, Time))
  {
    var encoded := rules.encode(apps);
    var generatedAt := Served(newest);
    var stamp := rules.stamp(generatedAt / 1000000);
    (Envelope(stamp, signer.keyId, encoded, Sign(rules, signer, stamp, encoded)), generatedAt)
  }

  /** A verifier holds the public half of the key and rebuilds the message from the envelope alone. */
  predicate Verifies(rules: Rules, publicKey: string, document: Envelope)
  {
    rules.verify(publicKey, SignedMessage(document.generatedAt, document.apps), document.signature)
  }

  /** What a signature scheme promises: the public half accepts what the private half signed. */
  ghost predicate SignsSoundly(rules: Rules)
  {
    forall private, message :: rules.verify(rules.publicKey(private), message, rules.sign(private, message))
  }

  /** The newline frames the message: for newline-free stamps it determines stamp and apps. */
  lemma {:induction false} FrameIsUnique(stamp1: string, apps1: string, stamp2: string, apps2: string)
    requires '\n' !in stamp1 && '\n' !in stamp2
    requires SignedMessage(stamp1, apps1) == SignedMessage(stamp2, apps2)
    ensures stamp1 == stamp2 && apps1 == apps2
  {
    var m1, m2 := SignedMessage(stamp1, apps1), SignedMessage(stamp2, apps2);
    assert m1[|stamp1|] == '\n' && m2[|stamp2|] == '\n';
    assert forall i :: 0 <= i < |stamp1| ==> m1[i] == stamp1[i] && stamp1[i] in stamp1;
    assert forall i :: 0 <= i < |stamp2| ==> m2[i] == stamp2[i] && stamp2[i] in stamp2;
    assert |stamp1| == |stamp2|;
    assert stamp1 == m1[..|stamp1|] && stamp2 == m2[..|stamp2|];
    assert apps1 == m1[|stamp1| + 1..] && apps2 == m2[|stamp2| + 1..];
  }

  /** The document carries the newest publication, or the epoch, and the key's id. It verifies under the
      pinned public key, because the bytes embedded are the bytes signed; and a document that differs
      from it in stamp or apps but verifies with the same signature is a forgery of the scheme: one
      signature accepted for two messages. */
  lemma SignedDocumentsVerify(rules: Rules, signer: Signer, newest: Time, apps: seq<Entry>, other: Envelope)
    requires SignsSoundly(rules)
    ensures Verifies(rules, rules.publicKey(signer.private), SignDocument(rules, signer, newest, apps).0)
    ensures SignDocument(rules, signer, newest, apps).0.apps == rules.encode(apps)
    ensures SignDocument(rules, signer, newest, apps).1 == (if newest == 0 then 62135596800 * 1000000 else newest)
    ensures SignDocument(rules, signer, newest, apps).0.generatedAt == rules.stamp(SignDocument(rules, signer, newest, apps).1 / 1000000)
    ensures SignDocument(rules, signer, newest, apps).0.keyId == signer.keyId
    ensures var (document, key) := (SignDocument(rules, signer, newest, apps).0, rules.publicKey(signer.private));
            '\n' !in document.generatedAt && '\n' !in other.generatedAt
            && (document.generatedAt, document.apps) != (other.generatedAt, other.apps)
            && Verifies(rules, key, other) && other.signature == document.signature
            ==> exists m1, m2 :: m1 != m2 && rules.verify(key, m1, document.signature) && rules.verify(key, m2, document.signature)
  {
    var document, key := SignDocument(rules, signer, newest, apps).0, rules.publicKey(signer.private);
    if '\n' !in document.generatedAt && '\n' !in other.generatedAt
       && (document.generatedAt, document.apps) != (other.generatedAt, other.apps)
       && Verifies(rules, key, other) && other.signature == document.signature
    {
      var m1 := SignedMessage(document.generatedAt, document.apps);
      var m2 := SignedMessage(other.generatedAt, other.apps);
      if m1 == m2 {
        FrameIsUnique(document.generatedAt, document.apps, other.generatedAt, other.apps);
        assert false;
      }
      assert rules.verify(key, m1, document.signature) && rules.verify(key, m2, document.signature);
    }
  }
}
