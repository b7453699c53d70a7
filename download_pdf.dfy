/** The stand-alone downloader of causas_app/lib/download_pdf.py: it reads
    the cookies and the detail records saved by the scraper and asks the
    portal for every document, in table order, writing each answer that
    comes back with status 200. The HTTP request is a function `post` from
    the document URL, the `dtaDoc` value and the cookies to a status code
    or an exception, which ends the script; the file writes are
    represented by the names chosen. */
module DownloadPdf {
  import opened Common
  import Causas

  /** What happens to one entry. */
  datatype Outcome =
    | NoDocument              // no document URL or no dtaDoc: no request made
    | RequestRaised           // `requests.post` raised: the script stops here
    | HttpStatus(code: int)   // the portal answered another status: nothing written
    | Saved(name: string)     // the answer was written to this file

  /** The file name for entry `index`: the folio stripped of brackets, or
      "doc" when nothing is left, then "_", the index and ".pdf". */
  function FileName(folio: string, index: nat): string
  {
    var stem := StripBy(folio, Causas.IsBracket);
    (if stem == "" then "doc" else stem) + "_" + NatToString(index) + ".pdf"
  }

  /** `descargar_pdf(entry, index)`. */
  function EntryOutcome(e: Causas.Record, index: nat, cookies: map<string, string>, post: Causas.Post): (r: Outcome)
    ensures r == NoDocument <==> !Causas.HasDocument(e)
    ensures Causas.HasDocument(e) ==>
      var reply := post(e.docUrl.value, e.dtaDoc.value, cookies);
      && (r.Saved? <==> reply == Causas.Status(200))
      && (r == RequestRaised <==> reply == Causas.PostRaised)
      && (r.HttpStatus? ==> reply == Causas.Status(r.code) && r.code != 200)
    ensures r.Saved? ==> r.name == FileName(e.folio, index)
  {
    if !Causas.HasDocument(e) then NoDocument
    else
      match post(e.docUrl.value, e.dtaDoc.value, cookies)
      case PostRaised => RequestRaised
      case Status(code) => if code == 200 then Saved(FileName(e.folio, index)) else HttpStatus(code)
  }

  /** The outcomes of the first `n` entries, each with its own index. */
  function Outcomes(detalle: seq<Causas.Record>, cookies: map<string, string>, post: Causas.Post, n: nat)
    : (r: seq<Outcome>)
    requires n <= |detalle|
    ensures |r| == n
    decreases n
  {
    if n == 0 then [] else Outcomes(detalle, cookies, post, n - 1) + [EntryOutcome(detalle[n - 1], n - 1, cookies, post)]
  }

  /** Entry `i` of the outcomes is the outcome of entry `i` with index `i`. */
  lemma {:induction false} OutcomesAt(detalle: seq<Causas.Record>, cookies: map<string, string>, post: Causas.Post, n: nat)
    requires n <= |detalle|
    ensures forall i :: 0 <= i < n ==> Outcomes(detalle, cookies, post, n)[i] == EntryOutcome(detalle[i], i, cookies, post)
    decreases n
  {
    if n > 0 {
      OutcomesAt(detalle, cookies, post, n - 1);
    }
  }

  /** The indices among the first `n` entries that have a document. */
  function Requested(detalle: seq<Causas.Record>, n: nat): seq<nat>
    requires n <= |detalle|
    decreases n
  {
    if n == 0 then []
    else Requested(detalle, n - 1) + (if Causas.HasDocument(detalle[n - 1]) then [n - 1] else [])
  }

  /** Requests go exactly to the entries with a document, in increasing
      index order. */
  lemma {:induction false} RequestedIndices(detalle: seq<Causas.Record>, n: nat)
    requires n <= |detalle|
    ensures var r := Requested(detalle, n);
      && (forall k :: 0 <= k < |r| ==> r[k] < n && Causas.HasDocument(detalle[r[k]]))
      && (forall i :: 0 <= i < n && Causas.HasDocument(detalle[i]) ==> i in r)
      && (forall k, l :: 0 <= k < l < |r| ==> r[k] < r[l])
    decreases n
  {
    if n > 0 {
      RequestedIndices(detalle, n - 1);
      var r0 := Requested(detalle, n - 1);
      var r := Requested(detalle, n);
      if Causas.HasDocument(detalle[n - 1]) {
        assert r == r0 + [n - 1];
        forall i | 0 <= i < n && Causas.HasDocument(detalle[i]) ensures i in r {
          if i < n - 1 {
            assert i in r0;
          } else {
            assert r[|r0|] == i;
          }
        }
      } else {
        assert r == r0;
      }
    }
  }

  /** The module-level loop `for i, item in enumerate(detalle)`: the
      entries in order, with their indices, until a request raises, which
      ends the script; `requested` lists the indices for which a request
      was sent. */
  method DownloadAll(detalle: seq<Causas.Record>, cookies: map<string, string>, post: Causas.Post)
    returns (outcomes: seq<Outcome>, requested: seq<nat>)
    ensures |outcomes| <= |detalle|
    ensures outcomes == Outcomes(detalle, cookies, post, |outcomes|)
    ensures forall i :: 0 <= i < |outcomes| ==> outcomes[i] == EntryOutcome(detalle[i], i, cookies, post)
    ensures forall i :: 0 <= i < |outcomes| - 1 ==> outcomes[i] != RequestRaised
    ensures |outcomes| < |detalle| ==> outcomes != [] && outcomes[|outcomes| - 1] == RequestRaised
    ensures requested == Requested(detalle, |outcomes|)
    ensures forall k :: 0 <= k < |requested| ==> requested[k] < |outcomes| && Causas.HasDocument(detalle[requested[k]])
    ensures forall i :: 0 <= i < |outcomes| && Causas.HasDocument(detalle[i]) ==> i in requested
    ensures forall k, l :: 0 <= k < l < |requested| ==> requested[k] < requested[l]
  {
    outcomes := [];
    requested := [];
    var i := 0;
    var raised := false;
    while i < |detalle| && !raised
      invariant 0 <= i <= |detalle|
      invariant outcomes == Outcomes(detalle, cookies, post, i)
      invariant requested == Requested(detalle, i)
      invariant forall j :: 0 <= j < i - 1 ==> outcomes[j] != RequestRaised
      invariant raised <==> i > 0 && outcomes[i - 1] == RequestRaised
    {
      var o := EntryOutcome(detalle[i], i, cookies, post);
      if Causas.HasDocument(detalle[i]) {
        requested := requested + [i];
      }
      outcomes := outcomes + [o];
      raised := o == RequestRaised;
      i := i + 1;
    }
    OutcomesAt(detalle, cookies, post, i);
    RequestedIndices(detalle, i);
  }

  /** Two entries with different indices never get the same file name, so
      no download of a run overwrites another. */
  lemma FileNameInjective(f1: string, i: nat, f2: string, j: nat)
    requires FileName(f1, i) == FileName(f2, j)
    ensures i == j
  {
    var s1 := StripBy(f1, Causas.IsBracket);
    var s2 := StripBy(f2, Causas.IsBracket);
    var a1 := if s1 == "" then "doc" else s1;
    var a2 := if s2 == "" then "doc" else s2;
    var x1 := a1 + "_" + NatToString(i);
    var x2 := a2 + "_" + NatToString(j);
    assert x1 + ".pdf" == x2 + ".pdf";
    assert x1 == (x1 + ".pdf")[..|x1|];
    assert |x1| == |x2|;
    assert x2 == (x2 + ".pdf")[..|x2|];
    LastFieldUnique(a1, NatToString(i), a2, NatToString(j));
    NatToStringRoundTrip(i);
    NatToStringRoundTrip(j);
  }

  /** In `a + "_" + d` with `d` free of underscores, `d` is everything after
      the last underscore. */
  lemma LastFieldUnique(a1: string, d1: string, a2: string, d2: string)
    requires '_' !in d1 && '_' !in d2
    requires a1 + "_" + d1 == a2 + "_" + d2
    ensures d1 == d2
  {
    var x := a1 + "_" + d1;
    if |d1| < |d2| {
      UnderscoreInLongerField(a1, d1, a2, d2);
    } else if |d2| < |d1| {
      UnderscoreInLongerField(a2, d2, a1, d1);
    } else {
      assert d1 == x[|x| - |d1|..];
      assert d2 == x[|x| - |d2|..];
    }
  }

  /** If the field after the last underscore were shorter on one side, the
      other side's field would contain that underscore. */
  lemma UnderscoreInLongerField(a1: string, d1: string, a2: string, d2: string)
    requires a1 + "_" + d1 == a2 + "_" + d2
    requires |d1| < |d2|
    ensures '_' in d2
  {
    var x := a1 + "_" + d1;
    var k := |d2| - |d1| - 1;
    assert x[|a1|] == '_';
    assert (a2 + "_" + d2)[|a2| + 1 + k] == d2[k];
  }

  /** All files saved by one run have pairwise different names. */
  lemma SavedNamesDistinct(detalle: seq<Causas.Record>, cookies: map<string, string>,
                           post: Causas.Post, outcomes: seq<Outcome>)
    requires |outcomes| <= |detalle|
    requires forall i :: 0 <= i < |outcomes| ==> outcomes[i] == EntryOutcome(detalle[i], i, cookies, post)
    ensures forall i, j :: 0 <= i < j < |outcomes| && outcomes[i].Saved? && outcomes[j].Saved? ==>
      outcomes[i].name != outcomes[j].name
  {
    forall i, j | 0 <= i < j < |outcomes| && outcomes[i].Saved? && outcomes[j].Saved?
      ensures outcomes[i].name != outcomes[j].name
    {
      if outcomes[i].name == outcomes[j].name {
        FileNameInjective(detalle[i].folio, i, detalle[j].folio, j);
      }
    }
  }

  /** A folio made only of brackets (the empty folio included) is saved
      under "doc"; any other folio under its stripped self. */
  lemma BracketFolioFallsBack(folio: string, index: nat)
    ensures (forall i :: 0 <= i < |folio| ==> Causas.IsBracket(folio[i])) ==>
      FileName(folio, index) == "doc_" + NatToString(index) + ".pdf"
    ensures !(forall i :: 0 <= i < |folio| ==> Causas.IsBracket(folio[i])) ==>
      FileName(folio, index) == StripBy(folio, Causas.IsBracket) + "_" + NatToString(index) + ".pdf"
  {
    var stem := StripBy(folio, Causas.IsBracket);
    var digits := NatToString(index);
    StripByShape(folio, Causas.IsBracket);
    if stem == "" {
      assert FileName(folio, index) == "doc" + "_" + digits + ".pdf";
      assert "doc" + "_" == "doc_";
    } else {
      assert FileName(folio, index) == stem + "_" + digits + ".pdf";
    }
  }
}
