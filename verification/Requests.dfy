/** How a request is read: from a header list, with the client Envoy vouches for, and by the two
    spellings of a multi-get body. */
module Requests {
  import opened Common
  import opened Json
  import opened Rewrite
  import opened Ndjson
  import opened Adapter
  import opened Transform
  import opened Route
  import opened Reference
  import opened Filter
  import opened AsyncWrite
  import opened Observe
  import Demux
  import Xfcc
  import Certificates

  // ----- from a header list -----

  /** The first header of each name counts, in any case, and the request keeps all of them. */
  lemma RequestRead(headers: Headers, body: string, m: nat, p: nat)
    requires FirstNamed(headers, ":method", m) && FirstNamed(headers, ":path", p)
    ensures var req := RequestFrom(headers, None, body);
            req.verb == headers[m].1 && req.pathAndQuery == headers[p].1 && req.headers == headers && req.body == body
  {
    HeaderValueAt(headers, ":method", m);
    HeaderValueAt(headers, ":path", p);
  }

  /** The certificate header, however it is written, says this subject and these URIs of the peer
      itself; whatever the rest of the chain says. */
  ghost predicate Vouches(headers: Headers, subject: string, uris: seq<string>) {
    exists i: nat, pad: string, ws: seq<Certificates.Written>, tail: string, chain: string ::
      && FirstNamed(headers, "x-forwarded-client-cert", i)
      && Certificates.IsWritten(headers[i].1, pad, ws, tail, chain)
      && Xfcc.Subject(Certificates.Meant(ws)) == subject && Xfcc.Uris(Certificates.Meant(ws)) == uris
  }

  /** A client's name: its first URI, or without one its subject, or without either the anonymous
      name. */
  function ClientName(subject: string, uris: seq<string>): string {
    if uris != [] then uris[0] else if subject != "" then subject else "anonymous"
  }

  /** A vouched-for client is presented, under its name. */
  lemma ClientRead(headers: Headers, body: string, subject: string, uris: seq<string>)
    requires Vouches(headers, subject, uris)
    ensures var req := RequestFrom(headers, None, body);
            && req.identity == Identity(true, subject, uris)
            && (FromFilter(req).Some? ==> FromFilter(req).value.principal == ClientName(subject, uris))
  {
    var i: nat, pad: string, ws: seq<Certificates.Written>, tail: string, chain: string :|
      && FirstNamed(headers, "x-forwarded-client-cert", i)
      && Certificates.IsWritten(headers[i].1, pad, ws, tail, chain)
      && Xfcc.Subject(Certificates.Meant(ws)) == subject && Xfcc.Uris(Certificates.Meant(ws)) == uris;
    HeaderValueAt(headers, "x-forwarded-client-cert", i);
    Certificates.WrittenRead(headers[i].1, pad, ws, tail, chain);
    Certificates.UrisNotEmpty(Certificates.Meant(ws));
    NameOf(RequestFrom(headers, None, body), subject, uris);
  }

  lemma NameOf(req: Request, subject: string, uris: seq<string>)
    requires req.identity == Identity(true, subject, uris) && Xfcc.NonEmptyUris(uris)
    ensures FromFilter(req).Some? ==> FromFilter(req).value.principal == ClientName(subject, uris)
  {
    if uris != [] { assert uris[0] != ""; }
  }

  /** Without a certificate header the client is not presented, and anonymous. */
  lemma StrangerRead(headers: Headers, body: string)
    requires forall i :: 0 <= i < |headers| ==> !EqIgnoreCase(headers[i].0, "x-forwarded-client-cert")
    ensures var req := RequestFrom(headers, None, body);
            !req.identity.presented && (FromFilter(req).Some? ==> FromFilter(req).value.principal == "anonymous")
  {
    HeaderValueNone(headers, "x-forwarded-client-cert");
  }

  /** Under a tenancy keyed by the principal the tenant is the vouched-for client's name, whatever
      the client writes into the other headers. */
  lemma ClientIsTenant(tenancy: Tenancy, headers: Headers, body: string, subject: string, uris: seq<string>)
    requires tenancy.fromPrincipal && Vouches(headers, subject, uris)
    requires FromFilter(RequestFrom(headers, None, body)).Some?
    ensures tenancy.ResolvePartition(FromFilter(RequestFrom(headers, None, body)).value)
            == Ok(ClientName(subject, uris))
  {
    ClientRead(headers, body, subject, uris);
  }

  /** With certificates required, a write is refused exactly when no certificate is presented. */
  lemma CertificateAskedIff(f: Brain, req: Request)
    requires f.requireMtls && FromFilter(Filter.Seen(f, req)).Some?
    ensures Handled(f, req) == Replied(ErrorReply(403, "mtls_required_for_mutation")) <==>
            FromFilter(Filter.Seen(f, req)).value.endpoint in {IngestDoc, IngestBulk, DeleteById, DeleteByQuery}
            && !req.identity.presented
  {
    HandledIs(f, req);
    NotForbidden(f.router, FromFilter(Filter.Seen(f, req)).value);
  }

  lemma NotForbidden(router: Router, ctx: Ctx)
    ensures Prepare(router, ctx) != Immediate(ErrorReply(403, "mtls_required_for_mutation"))
  {
  }

  /** The asynchronous mode is asked for exactly when some header of its name, in any case, says
      `async`, in any case. */
  lemma {:induction false} AsyncAskedIff(headers: Headers)
    ensures WantsAsync(headers) <==>
            exists i: nat :: i < |headers| && EqIgnoreCase(headers[i].0, "x-evoxy-write-mode")
                             && EqIgnoreCase(headers[i].1, "async")
  {
    if headers != [] {
      AsyncAskedIff(headers[1..]);
      if i: nat :| i < |headers[1..]| && EqIgnoreCase(headers[1..][i].0, "x-evoxy-write-mode")
                   && EqIgnoreCase(headers[1..][i].1, "async")
      {
        assert headers[i + 1] == headers[1..][i];
      }
      if i: nat :| i < |headers| && EqIgnoreCase(headers[i].0, "x-evoxy-write-mode")
                   && EqIgnoreCase(headers[i].1, "async")
      {
        if i > 0 { assert headers[1..][i - 1] == headers[i]; }
      }
    }
  }

  // ----- the two spellings of a multi-get -----

  /** The text of an id: a string is its own, a number or truth value is as it is printed; nothing
      else is an id. */
  lemma IdTextIff(v: Json, text: string)
    ensures Scalar(v) == Some(text) <==> v == Str(text) || ((v.Num? || v.Bool?) && Print(v) == text)
  {
  }

  /** Every entry is a scalar with this text. */
  predicate Texts(ids: seq<Json>, xs: seq<string>) {
    |ids| == |xs| && forall i :: 0 <= i < |ids| ==> Scalar(ids[i]) == Some(xs[i])
  }

  lemma {:induction false} BareIdsRead(ids: seq<Json>, xs: seq<string>)
    ensures BareIds(ids) == Ok(xs) <==> Texts(ids, xs)
  {
    if ids == [] {
    } else if xs == [] {
      assert BareIds(ids).Ok? ==> |BareIds(ids).value| > 0;
    } else {
      BareIdsRead(ids[1..], xs[1..]);
      assert [xs[0]] + xs[1..] == xs;
      if Texts(ids, xs) {
        assert forall i :: 0 <= i < |ids[1..]| ==> ids[1..][i] == ids[i + 1] && xs[1..][i] == xs[i + 1];
      }
      if BareIds(ids) == Ok(xs) {
        assert BareIds(ids).value[1..] == xs[1..];
        assert forall i :: 0 < i < |ids| ==> ids[i] == ids[1..][i - 1] && xs[i] == xs[1..][i - 1];
      }
    }
  }

  /** Every entry is an object whose id is a scalar with this text, whatever else it holds. */
  predicate DocTexts(docs: seq<Json>, xs: seq<string>) {
    |docs| == |xs| && forall i :: 0 <= i < |docs| ==>
      docs[i].Obj? && Get(docs[i].fields, "_id").Some? && Scalar(Get(docs[i].fields, "_id").value) == Some(xs[i])
  }

  lemma {:induction false} DocIdsRead(docs: seq<Json>, xs: seq<string>)
    ensures DocIds(docs) == Ok(xs) <==> DocTexts(docs, xs)
  {
    if docs == [] {
    } else if xs == [] {
      assert DocIds(docs).Ok? ==> |DocIds(docs).value| > 0;
    } else {
      DocIdsRead(docs[1..], xs[1..]);
      assert [xs[0]] + xs[1..] == xs;
      if DocTexts(docs, xs) {
        assert forall i :: 0 <= i < |docs[1..]| ==> docs[1..][i] == docs[i + 1] && xs[1..][i] == xs[i + 1];
      }
      if DocIds(docs) == Ok(xs) {
        assert DocIds(docs).value[1..] == xs[1..];
        assert forall i :: 0 < i < |docs| ==> docs[i] == docs[1..][i - 1] && xs[i] == xs[1..][i - 1];
      }
    }
  }

  /** A multi-get body names these documents exactly when its `docs` do, or, where it has no list of
      `docs`, its bare `ids`. */
  lemma MgetReadIff(fs: Fields, xs: seq<string>)
    requires ValidFields(fs)
    ensures ParseMget(Print(Obj(fs))) == Ok(xs) <==>
            match Get(fs, "docs")
            case Some(Arr(docs)) => DocTexts(docs, xs)
            case _ =>
              match Get(fs, "ids")
              case Some(Arr(ids)) => Texts(ids, xs)
              case _ => false
  {
    ParsePrint(Obj(fs));
    match Get(fs, "docs") {
      case Some(Arr(docs)) => DocIdsRead(docs, xs);
      case _ =>
        match Get(fs, "ids") {
          case Some(Arr(ids)) => BareIdsRead(ids, xs);
          case _ =>
        }
    }
  }

  /** So a multi-get of bare ids is forwarded as the one that spells the documents out. */
  lemma SpellingsAlike(p: Resolved, bare: Fields, spelled: Fields, ids: seq<Json>, docs: seq<Json>, xs: seq<string>)
    requires ValidFields(bare) && ValidFields(spelled)
    requires Get(bare, "docs") == None && Get(bare, "ids") == Some(Arr(ids)) && Texts(ids, xs)
    requires Get(spelled, "docs") == Some(Arr(docs)) && DocTexts(docs, xs)
    ensures Demux.RewriteMget(p, Print(Obj(bare))) == Demux.RewriteMget(p, Print(Obj(spelled)))
  {
    MgetReadIff(bare, xs);
    MgetReadIff(spelled, xs);
  }
}
