/** Proofs of opaque tool-call signatures. A proof binds a signature to its issuer, to the
    conversation before it and to the call it signs. Hashing is taken as injective, so a
    digest is what was hashed; a document is its canonical JSON text, which never contains a
    zero byte. */
module Signatures {
  import opened Sums
  import opened Sets

  type Bytes = seq<nat>

  predicate ZeroFree(b: Bytes)
  {
    0 !in b
  }

  type Json = b: Bytes | ZeroFree(b) witness []

  /** A call's ID, name and canonical arguments. */
  datatype Target = Target(id: string, name: string, arguments: Json)

  datatype Issuer = Issuer(id: string, providerDefinition: bool, exact: bool)

  /** The arguments of a call. `text` is their encoding inside a message, None when they
      cannot be encoded; `canonical` is the canonical form of what they say, None when it
      is not JSON. */
  datatype Arguments = Arguments(text: Option<Json>, canonical: Option<Json>)

  datatype ToolCall = ToolCall(id: string, kind: string, name: string, arguments: Arguments, signature: string,
    issuer: Option<Issuer>)

  /** `body` encodes everything but the calls, None when it cannot be encoded. */
  datatype Message = Message(body: Option<Json>, calls: seq<ToolCall>)

  /** `context` holds the prompt, the tools and the tool choice. */
  datatype Request = Request(context: Option<Json>, messages: seq<Message>)

  datatype Proof = Proof(signature: string, issuer: Issuer, context: Bytes, target: Target)

  const MAX_PROOFS := 256

  /** What a signature signs; None when the call lacks an ID, a name or JSON arguments. */
  function TargetOf(call: ToolCall): Option<Target>
  {
    if call.id == "" || call.name == "" || call.arguments.canonical.None? then None
    else Some(Target(call.id, call.name, call.arguments.canonical.value))
  }

  // ----- Messages with signatures erased ------------------------------------------------

  function Bare(call: ToolCall): ToolCall
  {
    call.(signature := "", issuer := None)
  }

  function Erased(m: Message): Message
  {
    m.(calls := seq(|m.calls|, i requires 0 <= i < |m.calls| => Bare(m.calls[i])))
  }

  function TextBytes(s: string): Json
  {
    seq(|s|, i requires 0 <= i < |s| => s[i] as nat + 1)
  }

  /** Parts that can be told apart again: each is announced by its length. */
  function Framed(parts: seq<Json>): Json
  {
    if parts == [] then [] else [|parts[0]| + 1] + parts[0] + Framed(parts[1..])
  }

  function OptionBytes(o: Option<Json>): Json
  {
    match o
    case None => []
    case Some(json) => [1] + json
  }

  /** The encoding of a call leaves out signature and issuer. The canonical arguments are
      determined by the arguments; spelling them out keeps the encoding one to one. */
  function EncodeCall(call: ToolCall): Option<Json>
  {
    match call.arguments.text
    case None => None
    case Some(text) => Some(Framed([TextBytes(call.id), TextBytes(call.kind), TextBytes(call.name), text,
      OptionBytes(call.arguments.canonical)]))
  }

  function EncodeCalls(calls: seq<ToolCall>): Option<seq<Json>>
  {
    if calls == [] then Some([])
    else
      match (EncodeCall(calls[0]), EncodeCalls(calls[1..]))
      case (Some(first), Some(rest)) => Some([first] + rest)
      case _ => None
  }

  function EncodeMessage(m: Message): Option<Json>
  {
    match (m.body, EncodeCalls(m.calls))
    case (Some(body), Some(calls)) => Some(Framed([body] + calls))
    case _ => None
  }

  /** What is hashed of a message. */
  function Document(m: Message): Option<Json>
  {
    EncodeMessage(Erased(m))
  }

  lemma {:induction false} FramesAreInjective(a: seq<Json>, b: seq<Json>)
    requires Framed(a) == Framed(b)
    ensures a == b
    decreases |a|
  {
    if a != [] && b != [] {
      var x, y := Framed(a), Framed(b);
      assert x[0] == |a[0]| + 1 && y[0] == |b[0]| + 1;
      assert a[0] == x[1..1 + |a[0]|] && b[0] == y[1..1 + |b[0]|];
      assert Framed(a[1..]) == x[1 + |a[0]|..] && Framed(b[1..]) == y[1 + |b[0]|..];
      FramesAreInjective(a[1..], b[1..]);
      assert a == [a[0]] + a[1..] && b == [b[0]] + b[1..];
    }
  }

  lemma TextsAreInjective(s: string, t: string)
    requires TextBytes(s) == TextBytes(t)
    ensures s == t
  {
    assert |s| == |TextBytes(s)| == |t|;
    forall i | 0 <= i < |s|
      ensures s[i] == t[i]
    {
      assert TextBytes(s)[i] == TextBytes(t)[i];
    }
  }

  lemma CallsAreInjective(a: ToolCall, b: ToolCall)
    requires EncodeCall(a).Some? && EncodeCall(a) == EncodeCall(b)
    ensures Bare(a) == Bare(b)
  {
    hide TextBytes, Framed;
    var x := [TextBytes(a.id), TextBytes(a.kind), TextBytes(a.name), a.arguments.text.value,
      OptionBytes(a.arguments.canonical)];
    var y := [TextBytes(b.id), TextBytes(b.kind), TextBytes(b.name), b.arguments.text.value,
      OptionBytes(b.arguments.canonical)];
    FramesAreInjective(x, y);
    assert x[0] == y[0] && x[1] == y[1] && x[2] == y[2] && x[3] == y[3] && x[4] == y[4];
    TextsAreInjective(a.id, b.id);
    TextsAreInjective(a.kind, b.kind);
    TextsAreInjective(a.name, b.name);
    OptionsAreInjective(a.arguments.canonical, b.arguments.canonical);
  }

  lemma OptionsAreInjective(a: Option<Json>, b: Option<Json>)
    requires OptionBytes(a) == OptionBytes(b)
    ensures a == b
  {
    if a.Some? && b.Some? {
      assert a.value == OptionBytes(a)[1..] && b.value == OptionBytes(b)[1..];
    }
  }

  lemma {:induction false} CallListsAreInjective(a: seq<ToolCall>, b: seq<ToolCall>)
    requires EncodeCalls(a).Some? && EncodeCalls(a) == EncodeCalls(b)
    ensures |a| == |b| && forall i :: 0 <= i < |a| ==> Bare(a[i]) == Bare(b[i])
    decreases |a|
  {
    hide EncodeCall, Bare;
    if a != [] && b != [] {
      var x, y := EncodeCalls(a).value, EncodeCalls(b).value;
      assert x[0] == y[0] && x[1..] == y[1..];
      assert EncodeCalls(a[1..]) == Some(x[1..]) && EncodeCalls(b[1..]) == Some(y[1..]);
      CallsAreInjective(a[0], b[0]);
      CallListsAreInjective(a[1..], b[1..]);
      assert forall i :: 0 < i < |a| ==> a[i] == a[1..][i - 1] && b[i] == b[1..][i - 1];
    }
  }

  /** Two messages are hashed alike exactly when they have the same body and the same calls
      but for signatures and issuers. */
  lemma DocumentsIdentifyMessages(m: Message, n: Message)
    requires Document(m).Some?
    ensures Document(m) == Document(n) <==> Erased(m) == Erased(n)
  {
    hide EncodeCalls, Framed;
    if Document(m) == Document(n) {
      var a, b := Erased(m), Erased(n);
      var x, y := [a.body.value] + EncodeCalls(a.calls).value, [b.body.value] + EncodeCalls(b.calls).value;
      FramesAreInjective(x, y);
      assert x[0] == y[0] && x[1..] == EncodeCalls(a.calls).value && y[1..] == EncodeCalls(b.calls).value;
      CallListsAreInjective(a.calls, b.calls);
      assert forall i :: 0 <= i < |a.calls| ==> a.calls[i] == Bare(a.calls[i]) && b.calls[i] == Bare(b.calls[i]);
      assert a.calls == b.calls;
    }
  }

  // ----- Context digests ----------------------------------------------------------------

  /** Each document followed by one zero byte. */
  function Stream(docs: seq<Json>): Bytes
  {
    if docs == [] then [] else docs[0] + [0] + Stream(docs[1..])
  }

  predicate Encodable(r: Request)
  {
    r.context.Some? && forall i :: 0 <= i < |r.messages| ==> Document(r.messages[i]).Some?
  }

  function Documents(r: Request, prefix: nat): seq<Json>
    requires Encodable(r) && prefix <= |r.messages|
  {
    [r.context.value] + seq(prefix, i requires 0 <= i < prefix => Document(r.messages[i]).value)
  }

  function ContextDigest(r: Request, prefix: nat): Bytes
    requires Encodable(r) && prefix <= |r.messages|
  {
    Stream(Documents(r, prefix))
  }

  /** What precedes the first zero byte. */
  function Head(b: Bytes): Bytes
  {
    if b == [] || b[0] == 0 then [] else [b[0]] + Head(b[1..])
  }

  lemma {:induction false} HeadOf(doc: Json, rest: Bytes)
    ensures Head(doc + [0] + rest) == doc
    decreases |doc|
  {
    var b := doc + [0] + rest;
    if doc != [] {
      assert b[1..] == doc[1..] + [0] + rest;
      HeadOf(doc[1..], rest);
    }
  }

  lemma FirstDocument(a: Json, b: Json, x: Bytes, y: Bytes)
    requires a + [0] + x == b + [0] + y
    ensures a == b && x == y
  {
    HeadOf(a, x);
    HeadOf(b, y);
    assert x == (a + [0] + x)[|a| + 1..] && y == (b + [0] + y)[|b| + 1..];
  }

  /** The terminated documents can be read back from the stream. */
  lemma {:induction false} StreamsAreInjective(a: seq<Json>, b: seq<Json>)
    requires Stream(a) == Stream(b)
    ensures a == b
    decreases |a|
  {
    if a != [] && b != [] {
      FirstDocument(a[0], b[0], Stream(a[1..]), Stream(b[1..]));
      StreamsAreInjective(a[1..], b[1..]);
      assert a == [a[0]] + a[1..] && b == [b[0]] + b[1..];
    }
  }

  /** Same prompt, tools and tool choice, and the same messages before the boundary once
      signatures are erased. */
  ghost predicate SameConversation(r: Request, rPrefix: nat, q: Request, qPrefix: nat)
    requires Encodable(r) && Encodable(q) && rPrefix <= |r.messages| && qPrefix <= |q.messages|
  {
    && rPrefix == qPrefix && r.context == q.context
    && forall i :: 0 <= i < rPrefix ==> Erased(r.messages[i]) == Erased(q.messages[i])
  }

  lemma DigestsIdentifyConversations(r: Request, rPrefix: nat, q: Request, qPrefix: nat)
    requires Encodable(r) && Encodable(q) && rPrefix <= |r.messages| && qPrefix <= |q.messages|
    ensures ContextDigest(r, rPrefix) == ContextDigest(q, qPrefix) <==> SameConversation(r, rPrefix, q, qPrefix)
  {
    hide Document, Erased;
    var a, b := Documents(r, rPrefix), Documents(q, qPrefix);
    if Stream(a) == Stream(b) {
      StreamsAreInjective(a, b);
      assert a[0] == b[0];
      forall i | 0 <= i < rPrefix
        ensures Erased(r.messages[i]) == Erased(q.messages[i])
      {
        assert a[i + 1] == b[i + 1];
        DocumentsIdentifyMessages(r.messages[i], q.messages[i]);
      }
    }
    if SameConversation(r, rPrefix, q, qPrefix) {
      forall i | 0 <= i < rPrefix
        ensures Document(r.messages[i]) == Document(q.messages[i])
      {
        DocumentsIdentifyMessages(r.messages[i], q.messages[i]);
      }
      assert a == b;
    }
  }

  /** The running hash: one digest per message boundary in a single pass. */
  method ContextDigests(r: Request) returns (digests: Option<seq<Bytes>>)
    ensures digests.Some? <==> Encodable(r)
    ensures digests.Some? ==> |digests.value| == |r.messages| + 1
                              && forall k :: 0 <= k <= |r.messages| ==> digests.value[k] == ContextDigest(r, k)
  {
    hide Stream, Document;
    if r.context.None? {
      return None;
    }
    var hashed: Bytes := r.context.value + [0];
    var all := [hashed];
    ghost var docs := [r.context.value];
    StreamOfOne(r.context.value);
    for i := 0 to |r.messages|
      invariant forall k :: 0 <= k < i ==> Document(r.messages[k]).Some?
      invariant |docs| == i + 1 && docs[0] == r.context.value
                  && forall k :: 0 <= k < i ==> docs[k + 1] == Document(r.messages[k]).value
      invariant hashed == Stream(docs)
      invariant |all| == i + 1 && forall k :: 0 <= k <= i ==> all[k] == Stream(docs[..k + 1])
    {
      var document := Document(r.messages[i]);
      if document.None? {
        return None;
      }
      StreamGrows(docs, Document(r.messages[i]).value);
      ghost var longer := docs + [Document(r.messages[i]).value];
      forall k | 0 <= k <= i
        ensures all[k] == Stream(longer[..k + 1])
      {
        assert longer[..k + 1] == docs[..k + 1];
      }
      assert longer[..i + 2] == longer;
      hashed := hashed + document.value + [0];
      all := all + [hashed];
      docs := longer;
    }
    forall k | 0 <= k <= |r.messages|
      ensures all[k] == ContextDigest(r, k)
    {
      assert docs[..k + 1] == Documents(r, k);
    }
    digests := Some(all);
  }

  lemma StreamOfOne(doc: Json)
    ensures Stream([doc]) == doc + [0] && [doc][..1] == [doc]
  {
    assert [doc][1..] == [];
  }

  lemma EndsOfConcat(a: Bytes, b: Bytes, c: Bytes, d: Bytes)
    ensures a + (b + c + d) == (a + b) + c + d
  {
  }

  lemma {:induction false} StreamGrows(docs: seq<Json>, doc: Json)
    ensures Stream(docs + [doc]) == Stream(docs) + doc + [0]
    decreases |docs|
  {
    if docs == [] {
      StreamOfOne(doc);
      assert docs + [doc] == [doc];
    } else {
      StreamGrows(docs[1..], doc);
      assert (docs + [doc])[1..] == docs[1..] + [doc];
      EndsOfConcat(docs[0] + [0], Stream(docs[1..]), doc, [0]);
    }
  }

  // ----- Proofs -----------------------------------------------------------------------------

  predicate ValidIssuer(i: Issuer)
  {
    i.providerDefinition && i.exact
  }

  function NewProof(signature: string, issuer: Issuer, context: Bytes, call: ToolCall): Option<Proof>
  {
    if signature == "" || !ValidIssuer(issuer) || TargetOf(call).None? then None
    else Some(Proof(signature, issuer, context, TargetOf(call).value))
  }

  /** A signature recorded while answering a request. */
  datatype Record = Record(request: Request, issuer: Issuer, call: ToolCall)

  predicate Recordable(rec: Record)
  {
    Encodable(rec.request) && rec.call.signature != "" && ValidIssuer(rec.issuer) && TargetOf(rec.call).Some?
  }

  function ProofOf(rec: Record): Proof
    requires Recordable(rec)
  {
    Proof(rec.call.signature, rec.issuer, ContextDigest(rec.request, |rec.request.messages|), TargetOf(rec.call).value)
  }

  predicate Proves(p: Proof, rec: Record)
  {
    Recordable(rec) && ProofOf(rec) == p
  }

  ghost predicate Recorded(p: Proof, records: seq<Record>)
  {
    exists k :: 0 <= k < |records| && Proves(p, records[k])
  }

  /** Duplicate-free, bounded, and exactly the proofs of what was recorded. */
  ghost predicate ProofsOf(proofs: seq<Proof>, records: seq<Record>)
  {
    && NoRepeats(proofs) && |proofs| <= MAX_PROOFS
    && (forall i :: 0 <= i < |records| ==> Recordable(records[i]) && ProofOf(records[i]) in proofs)
    && (forall i :: 0 <= i < |proofs| ==> Recorded(proofs[i], records))
  }

  /** The proofs of a session, with the records they came from. */
  class ProofLog {
    var proofs: seq<Proof>
    ghost var records: seq<Record>

    ghost predicate Valid()
      reads this
    {
      ProofsOf(proofs, records)
    }

    constructor ()
      ensures Valid() && proofs == [] && records == []
    {
      proofs, records := [], [];
    }

    /** Adds a proof once, while there is room; None means success. */
    method Append(rec: Record) returns (ok: bool)
      requires Valid() && Encodable(rec.request)
      modifies this
      ensures Valid()
      ensures ok <==> Recordable(rec) && (ProofOf(rec) in old(proofs) || |old(proofs)| < MAX_PROOFS)
      ensures records == if ok then old(records) + [rec] else old(records)
      ensures old(proofs) <= proofs
    {
      hide ContextDigest, Recorded;
      var context := ContextDigest(rec.request, |rec.request.messages|);
      var made := NewProof(rec.call.signature, rec.issuer, context, rec.call);
      if made.None? {
        return false;
      }
      for i := 0 to |proofs|
        invariant made.value !in proofs[..i]
      {
        if proofs[i] == made.value {
          records := records + [rec];
          forall k | 0 <= k < |proofs|
            ensures Recorded(proofs[k], records)
          {
            StaysRecorded(proofs[k], old(records), rec);
          }
          return true;
        }
      }
      assert proofs[..|proofs|] == proofs;
      if |proofs| >= MAX_PROOFS {
        return false;
      }
      proofs, records := proofs + [made.value], records + [rec];
      forall k | 0 <= k < |proofs|
        ensures Recorded(proofs[k], records)
      {
        StaysRecorded(proofs[k], old(records), rec);
      }
      ok := true;
    }
  }

  lemma StaysRecorded(p: Proof, records: seq<Record>, rec: Record)
    ensures Recorded(p, records + [rec]) <==> Recorded(p, records) || Proves(p, rec)
  {
    var longer := records + [rec];
    if k :| 0 <= k < |records| && Proves(p, records[k]) {
      assert longer[k] == records[k];
    }
    if Proves(p, rec) {
      assert longer[|records|] == rec;
    }
  }

  // ----- Attestation --------------------------------------------------------------------------

  /** A signed call is trusted when its own proof was saved. */
  predicate Trusted(q: Request, proofs: seq<Proof>, issuer: Issuer, m: nat, call: ToolCall)
    requires m < |q.messages|
  {
    Encodable(q) && var made := NewProof(call.signature, issuer, ContextDigest(q, m), call);
    made.Some? && made.value in proofs
  }

  /** A signed call is trusted exactly when its signature was recorded from the same issuer
      for the same call after an equal conversation. */
  lemma TrustedExactlyWhenRecorded(proofs: seq<Proof>, records: seq<Record>, q: Request, issuer: Issuer, m: nat,
                                   call: ToolCall)
    requires ProofsOf(proofs, records) && m < |q.messages|
    ensures Trusted(q, proofs, issuer, m, call) <==>
            exists k :: 0 <= k < |records| && Reappears(records[k], q, issuer, m, call)
  {
    hide ContextDigest, NoRepeats, TargetOf, Erased, Encodable;
    if Trusted(q, proofs, issuer, m, call) {
      var made := NewProof(call.signature, issuer, ContextDigest(q, m), call);
      var i :| 0 <= i < |proofs| && proofs[i] == made.value;
      var k :| 0 <= k < |records| && Proves(proofs[i], records[k]);
      var rec := records[k];
      DigestsIdentifyConversations(rec.request, |rec.request.messages|, q, m);
      assert Reappears(records[k], q, issuer, m, call);
    }
    if k :| 0 <= k < |records| && Reappears(records[k], q, issuer, m, call) {
      var rec := records[k];
      DigestsIdentifyConversations(rec.request, |rec.request.messages|, q, m);
      assert ProofOf(rec) in proofs;
    }
  }

  /** The same issuer, signature and call, after the conversation the record ended. */
  ghost predicate Reappears(rec: Record, q: Request, issuer: Issuer, m: nat, call: ToolCall)
    requires m < |q.messages|
  {
    && Recordable(rec) && rec.issuer == issuer && rec.call.signature == call.signature
       && TargetOf(rec.call) == TargetOf(call)
    && Encodable(q) && SameConversation(rec.request, |rec.request.messages|, q, m)
  }

  /** The issuer written to a signed call: the attested one exactly when the signature was
      recorded, or when no proof can be computed and the call came with that issuer. */
  lemma AttestedExactlyWhenRecorded(proofs: seq<Proof>, records: seq<Record>, q: Request, issuer: Issuer, m: nat,
                                    call: ToolCall)
    requires ProofsOf(proofs, records) && m < |q.messages| && call.signature != ""
    ensures AttestCall(q, proofs, issuer, m, call).issuer == Some(issuer) <==>
            || (exists k :: 0 <= k < |records| && Reappears(records[k], q, issuer, m, call))
            || (!Provable(q, issuer, call) && call.issuer == Some(issuer))
    ensures Flagged(q, proofs, issuer, m, call) <==>
              forall k :: 0 <= k < |records| ==> !Reappears(records[k], q, issuer, m, call)
  {
    hide ContextDigest, ProofsOf, Reappears, TargetOf, Encodable;
    TrustedExactlyWhenRecorded(proofs, records, q, issuer, m, call);
  }

  /** Requests arrive without issuers, which clients cannot set; then a signed call ends with
      an issuer exactly when its signature was recorded from that issuer, and never with
      another one. */
  lemma FreshCallsAreAttestedExactlyWhenRecorded(proofs: seq<Proof>, records: seq<Record>, q: Request, issuer: Issuer,
                                                 m: nat, call: ToolCall)
    requires ProofsOf(proofs, records) && m < |q.messages| && call.signature != "" && call.issuer.None?
    ensures AttestCall(q, proofs, issuer, m, call).issuer ==
            if exists k :: 0 <= k < |records| && Reappears(records[k], q, issuer, m, call) then Some(issuer) else None
  {
    hide ContextDigest, ProofsOf, Reappears, TargetOf, Encodable;
    TrustedExactlyWhenRecorded(proofs, records, q, issuer, m, call);
  }

  /** Attesting changes nothing that is hashed. */
  lemma AttestationKeepsDigests(q: Request, proofs: seq<Proof>, issuer: Issuer, attested: Request)
    requires attested.context == q.context && |attested.messages| == |q.messages|
    requires forall m :: 0 <= m < |q.messages| ==> AttestedMessage(q, proofs, issuer, m, attested.messages[m])
    ensures Encodable(attested) <==> Encodable(q)
    ensures Encodable(q) ==> forall k :: 0 <= k <= |q.messages| ==> ContextDigest(attested, k) == ContextDigest(q, k)
  {
    hide Document, ContextDigest, AttestedMessage;
    forall m | 0 <= m < |q.messages|
      ensures Erased(attested.messages[m]) == Erased(q.messages[m])
                && Document(attested.messages[m]) == Document(q.messages[m])
    {
      AttestedErasesAlike(q, proofs, issuer, m, attested.messages[m]);
    }
    if Encodable(q) {
      forall k | 0 <= k <= |q.messages|
        ensures ContextDigest(attested, k) == ContextDigest(q, k)
      {
        DigestsIdentifyConversations(attested, k, q, k);
      }
    }
  }

  lemma AttestedErasesAlike(q: Request, proofs: seq<Proof>, issuer: Issuer, m: nat, message: Message)
    requires m < |q.messages| && AttestedMessage(q, proofs, issuer, m, message)
    ensures Erased(message) == Erased(q.messages[m]) && Document(message) == Document(q.messages[m])
  {
    hide Trusted, Provable;
    assert Erased(message).calls == Erased(q.messages[m]).calls;
  }

  /** What attestation makes of one call. An unprovable signature is flagged but keeps the
      issuer it came with. */
  function AttestCall(q: Request, proofs: seq<Proof>, issuer: Issuer, m: nat, call: ToolCall): ToolCall
    requires m < |q.messages|
  {
    if call.signature == "" || !Provable(q, issuer, call) then call
    else call.(issuer := if Trusted(q, proofs, issuer, m, call) then Some(issuer) else None)
  }

  predicate Provable(q: Request, issuer: Issuer, call: ToolCall)
  {
    Encodable(q) && ValidIssuer(issuer) && TargetOf(call).Some?
  }

  /** A signed call that is not trusted makes the request require a facet nobody offers. */
  predicate Flagged(q: Request, proofs: seq<Proof>, issuer: Issuer, m: nat, call: ToolCall)
    requires m < |q.messages|
  {
    call.signature != "" && !Trusted(q, proofs, issuer, m, call)
  }

  method AttestToolCall(q: Request, digests: Option<seq<Bytes>>, proofs: seq<Proof>, issuer: Issuer, m: nat,
                        call: ToolCall)
    returns (attested: ToolCall, flagged: bool)
    requires m < |q.messages| && call.signature != ""
    requires digests.Some? <==> Encodable(q)
    requires digests.Some? ==> |digests.value| == |q.messages| + 1 && digests.value[m] == ContextDigest(q, m)
    ensures attested == AttestCall(q, proofs, issuer, m, call) && flagged == Flagged(q, proofs, issuer, m, call)
  {
    hide ContextDigest;
    var context := if digests.Some? then digests.value[m] else [];
    var made := NewProof(call.signature, issuer, context, call);
    if digests.None? || made.None? {
      return call, true;
    }
    var trusted := false;
    for i := 0 to |proofs|
      invariant trusted <==> made.value in proofs[..i]
    {
      if proofs[i] == made.value {
        trusted := true;
        assert made.value in proofs;
        break;
      }
    }
    assert proofs[..|proofs|] == proofs;
    if trusted {
      return call.(issuer := Some(issuer)), false;
    }
    return call.(issuer := None), true;
  }

  /** Attests every signed call in place; erasing signatures first keeps the digests
      independent of what is being written. */
  method AttestToolCallSignatures(q: Request, proofs: seq<Proof>, issuer: Issuer)
    returns (attested: Request, flagged: bool)
    ensures attested.context == q.context && |attested.messages| == |q.messages|
    ensures forall m :: 0 <= m < |q.messages| ==> AttestedMessage(q, proofs, issuer, m, attested.messages[m])
    ensures flagged <==> exists m :: 0 <= m < |q.messages| && FlaggedMessage(q, proofs, issuer, m)
    ensures Encodable(q) ==>
              Encodable(attested) && forall k ::
                0 <= k <= |q.messages| ==> ContextDigest(attested, k) == ContextDigest(q, k)
  {
    hide ContextDigest, AttestCall, Flagged, Encodable, FlaggedMessage;
    attested, flagged := q, false;
    var digests := ContextDigests(q);
    for m := 0 to |q.messages|
      invariant attested.context == q.context && |attested.messages| == |q.messages|
      invariant forall k :: 0 <= k < m ==> AttestedMessage(q, proofs, issuer, k, attested.messages[k])
      invariant forall k :: m <= k < |q.messages| ==> attested.messages[k] == q.messages[k]
      invariant flagged <==> exists k :: 0 <= k < m && FlaggedMessage(q, proofs, issuer, k)
    {
      var calls, some := AttestMessage(q, digests, proofs, issuer, m);
      attested := attested.(messages := attested.messages[m := q.messages[m].(calls := calls)]);
      flagged := flagged || some;
    }
    AttestationKeepsDigests(q, proofs, issuer, attested);
  }

  ghost predicate AttestedMessage(q: Request, proofs: seq<Proof>, issuer: Issuer, m: nat, message: Message)
    requires m < |q.messages|
  {
    var calls := q.messages[m].calls;
    && message.body == q.messages[m].body && |message.calls| == |calls|
    && forall c :: 0 <= c < |calls| ==> message.calls[c] == AttestCall(q, proofs, issuer, m, calls[c])
  }

  ghost predicate FlaggedMessage(q: Request, proofs: seq<Proof>, issuer: Issuer, m: nat)
    requires m < |q.messages|
  {
    exists c :: 0 <= c < |q.messages[m].calls| && Flagged(q, proofs, issuer, m, q.messages[m].calls[c])
  }

  lemma UnsignedIsKept(q: Request, proofs: seq<Proof>, issuer: Issuer, m: nat, call: ToolCall)
    requires m < |q.messages| && call.signature == ""
    ensures AttestCall(q, proofs, issuer, m, call) == call && !Flagged(q, proofs, issuer, m, call)
  {
  }

  method AttestMessage(q: Request, digests: Option<seq<Bytes>>, proofs: seq<Proof>, issuer: Issuer, m: nat)
    returns (calls: seq<ToolCall>, flagged: bool)
    requires m < |q.messages| && (digests.Some? <==> Encodable(q))
    requires digests.Some? ==> |digests.value| == |q.messages| + 1 && digests.value[m] == ContextDigest(q, m)
    ensures |calls| == |q.messages[m].calls|
    ensures forall c :: 0 <= c < |calls| ==> calls[c] == AttestCall(q, proofs, issuer, m, q.messages[m].calls[c])
    ensures flagged <==> FlaggedMessage(q, proofs, issuer, m)
  {
    hide ContextDigest, AttestCall, Flagged;
    calls, flagged := q.messages[m].calls, false;
    for c := 0 to |calls|
      invariant |calls| == |q.messages[m].calls|
      invariant forall k :: 0 <= k < c ==> calls[k] == AttestCall(q, proofs, issuer, m, q.messages[m].calls[k])
      invariant forall k :: c <= k < |calls| ==> calls[k] == q.messages[m].calls[k]
      invariant flagged <==> exists k :: 0 <= k < c && Flagged(q, proofs, issuer, m, q.messages[m].calls[k])
    {
      if calls[c].signature == "" {
        UnsignedIsKept(q, proofs, issuer, m, calls[c]);
        continue;
      }
      var attested, some := AttestToolCall(q, digests, proofs, issuer, m, calls[c]);
      calls := calls[c := attested];
      flagged := flagged || some;
    }
  }
}
