/** The court-portal scraper of causas_app/lib/causas.py: a `ConsultaCausas`
    object owns at most one browser session and drives the portal's search
    wizard, its retry loops, the detail table of a case and the download of
    one document. The browser and the portal are an oracle (`Portal`): it
    says whether a launch succeeds, what each wizard page shows, whether
    quitting fails, which cookies and detail rows a session sees. */
module Causas {
  import opened Common

  /** A browser session, identified by the launch that created it. */
  type Session = nat

  /** `MAX_RETRIES`: default attempts of both retry loops. */
  const MaxRetries: int := 3

  /** Text of the result cell when a search finds nothing. */
  const NoResultsMarker: string := "No se han encontrado resultados"

  /** Host prefixed to a relative form action in the detail table. */
  const PortalHost: string := "https://oficinajudicialvirtual.pjud.cl"

  /** What `start_browser` meets: Chrome cannot be created, Chrome is
      created but opening the portal raises, or both succeed. */
  datatype Launch = LaunchFailed | NavigationFailed | Launched

  /** A dropdown of the wizard: waiting for it or selecting in it raises, or
      it shows these option texts (as read, before stripping). */
  datatype Select = SelectRaises | SelectOptions(texts: seq<string>)

  /** The result cell after submitting a search. */
  datatype Cell = CellUnreadable | CellText(text: string)

  /** What one run of the search wizard meets on the page: whether clicking
      "Consulta causas" raises, the four dropdowns, whether typing the roll
      and year or pressing search raises, and the result cell. */
  datatype WizardPage = WizardPage(
    clickFails: bool,
    competencia: Select, corte: Select, tribunal: Select, tipo: Select,
    entryFails: bool,
    cell: Cell)

  /** What a re-query with a new roll number meets. */
  datatype RequeryPage = RequeryPage(entryFails: bool, cell: Cell)

  /** A form in the second cell of a detail row; `dtaDoc` is None when the
      form has no `dtaDoc` input (finding it raises). */
  datatype Form = Form(action: string, dtaDoc: Option<string>)

  /** A `<td>` of the detail table: its text and the forms inside it. */
  datatype Td = Td(text: string, forms: seq<Form>)

  /** The browser and the portal, as far as the scraper can observe them.
      Wizard pages are indexed by the session, by how many searches the
      object has made so far and by the roll and year typed into the form;
      re-query pages by the session, the search count and the roll typed. */
  datatype Portal = Portal(
    launch: nat -> Launch,
    quitFails: Session -> bool,
    wizard: (Session, nat, string, string) -> WizardPage,
    requery: (Session, nat, int) -> RequeryPage,
    cookieJar: Session -> seq<(string, string)>,
    table: Session -> Option<seq<seq<Td>>>)

  /** The search to run: four dropdown values as the caller passed them
      (any Python value; only a string can match an option) and the roll
      and year typed into the form. */
  datatype Query = Query(
    competencia: Json, corte: Json, tribunal: Json, tipo: Json,
    rol: string, era: string)

  /** The `(noerror, existe)` pair every search step returns. */
  datatype Probe = Probe(noerror: bool, existe: bool)

  /** The object's state: its browser (None when there is none), how many
      launches and searches it has made, and the cookies of the last
      loaded detail page (None until one is loaded). */
  datatype Driver = Driver(
    browser: Option<Session>, launches: nat, probes: nat,
    cookies: Option<map<string, string>>)

  datatype AcqError = BrowserStartFailed | NavigationExhausted

  // ---------------------------------------------------------------------
  // Single steps
  // ---------------------------------------------------------------------

  /** `start_browser`: the session launched now becomes the browser unless
      Chrome could not be created, in which case the browser is cleared;
      the session is returned only when opening the portal succeeded too. */
  datatype Started = Started(browser: Option<Session>, after: Driver)

  function StartStep(p: Portal, d: Driver): (r: Started)
    ensures r.after.launches == d.launches + 1
    ensures r.after.probes == d.probes && r.after.cookies == d.cookies
    ensures r.browser.Some? <==> p.launch(d.launches) == Launched
    ensures r.browser.Some? ==> r.browser == r.after.browser == Some(d.launches)
    ensures r.after.browser.None? <==> p.launch(d.launches) == LaunchFailed
  {
    var id := d.launches;
    match p.launch(id)
    case LaunchFailed => Started(None, d.(browser := None, launches := id + 1))
    case NavigationFailed => Started(None, d.(browser := Some(id), launches := id + 1))
    case Launched => Started(Some(id), d.(browser := Some(id), launches := id + 1))
  }

  /** `close`: the browser is dropped only when quitting it succeeds. */
  function CloseStep(p: Portal, d: Driver): (r: Driver)
    ensures r.browser.None? <==> d.browser.None? || !p.quitFails(d.browser.value)
    ensures r.browser.Some? ==> r.browser == d.browser
    ensures r.launches == d.launches && r.probes == d.probes && r.cookies == d.cookies
  {
    if d.browser.Some? && !p.quitFails(d.browser.value) then d.(browser := None) else d
  }

  /** A dropdown accepts a value when it shows options and the value is a
      string equal to one of the stripped option texts. */
  predicate Accepts(s: Select, v: Json)
  {
    s.SelectOptions? && v.JStr? && exists t :: t in s.texts && Strip(t) == v.s
  }

  /** The verdict read from the result cell once the search went through. */
  function CellProbe(c: Cell): Probe
  {
    if c.CellText? && Contains(c.text, NoResultsMarker) then Probe(true, false)
    else Probe(true, true)
  }

  /** `go_consulta_causas` on one wizard page. */
  function WizardProbe(page: WizardPage, q: Query): Probe
  {
    if page.clickFails then Probe(false, false)
    else if !Accepts(page.competencia, q.competencia) then Probe(false, false)
    else if !Accepts(page.corte, q.corte) then Probe(false, false)
    else if !Accepts(page.tribunal, q.tribunal) then Probe(false, false)
    else if !Accepts(page.tipo, q.tipo) then Probe(false, false)
    else if page.entryFails then Probe(false, false)
    else CellProbe(page.cell)
  }

  /** `go_consulta_causas` as a state step: without a browser it fails. */
  function ConsultaStep(p: Portal, d: Driver, q: Query): (Probe, Driver)
  {
    var pr := if d.browser.None? then Probe(false, false)
              else WizardProbe(p.wizard(d.browser.value, d.probes, q.rol, q.era), q);
    (pr, d.(probes := d.probes + 1))
  }

  /** `go_consulta_new_rol` as a state step. */
  function NewRolStep(p: Portal, d: Driver, rol: int): (Probe, Driver)
  {
    var pr := if d.browser.None? then Probe(false, false)
              else
                var page := p.requery(d.browser.value, d.probes, rol);
                if page.entryFails then Probe(false, false) else CellProbe(page.cell);
    (pr, d.(probes := d.probes + 1))
  }

  /** A search step never reports an existing case after an error, and it
      reports "no case" exactly when it went through and the result cell
      shows the marker. */
  lemma WizardProbeOutcomes(page: WizardPage, q: Query)
    ensures var pr := WizardProbe(page, q);
      && (pr.existe ==> pr.noerror)
      && (pr == Probe(true, false) <==>
           && !page.clickFails
           && Accepts(page.competencia, q.competencia) && Accepts(page.corte, q.corte)
           && Accepts(page.tribunal, q.tribunal) && Accepts(page.tipo, q.tipo)
           && !page.entryFails
           && page.cell.CellText? && Contains(page.cell.text, NoResultsMarker))
  {
  }

  /** A requested value missing from a dropdown's options gives the same
      verdict as that dropdown raising. */
  lemma MissingOptionIsLikeRaising(page: WizardPage, q: Query)
    requires page.tribunal.SelectOptions?
    requires !q.tribunal.JStr? || forall t :: t in page.tribunal.texts ==> Strip(t) != q.tribunal.s
    ensures WizardProbe(page, q) == WizardProbe(page.(tribunal := SelectRaises), q)
    ensures WizardProbe(page, q) == Probe(false, false)
  {
  }

  /** An unreadable result cell counts as "a case exists". */
  lemma UnreadableCellMeansExists(page: RequeryPage)
    requires !page.entryFails && page.cell.CellUnreadable?
    ensures CellProbe(page.cell) == Probe(true, true)
  {
  }

  // ---------------------------------------------------------------------
  // Retry loops as functions of the state
  // ---------------------------------------------------------------------

  datatype StartRun = StartRun(result: Result<Session, AcqError>, after: Driver)

  /** `iniciar_navegador(intentos)`: up to `intentos` launches, stopping at
      the first one that opens the portal. */
  function Initiate(p: Portal, d: Driver, n: int): StartRun
    decreases n
  {
    if n <= 0 then StartRun(Err(BrowserStartFailed), d)
    else
      var s := StartStep(p, d);
      if s.browser.Some? then StartRun(Ok(s.browser.value), s.after)
      else Initiate(p, s.after, n - 1)
  }

  function Max0(n: int): nat
  {
    if n < 0 then 0 else n
  }

  /** At most `n` launches are made; the session returned is the first
      launch that opened the portal, every earlier one failed, and failure
      is reported only after exactly `n` launches all failed. */
  lemma {:induction false} InitiateSpec(p: Portal, d: Driver, n: int)
    ensures var run := Initiate(p, d, n);
      && d.launches <= run.after.launches <= d.launches + Max0(n)
      && run.after.probes == d.probes
      && (run.result.Ok? ==>
            && run.result.value == run.after.launches - 1
            && p.launch(run.result.value) == Launched
            && run.after.browser == Some(run.result.value)
            && forall j :: d.launches <= j < run.result.value ==> p.launch(j) != Launched)
      && (run.result.Err? ==>
            && run.after.launches == d.launches + Max0(n)
            && forall j :: d.launches <= j < run.after.launches ==> p.launch(j) != Launched)
    decreases n
  {
    if n > 0 {
      var s := StartStep(p, d);
      if s.browser.None? {
        InitiateSpec(p, s.after, n - 1);
      }
    }
  }

  /** Starting the browser depends on the launches alone. */
  lemma {:induction false} InitiateReadsLaunches(p: Portal, p2: Portal, d: Driver, n: int)
    requires p2.launch == p.launch
    ensures Initiate(p2, d, n) == Initiate(p, d, n)
    decreases n
  {
    if n > 0 {
      var s := StartStep(p, d);
      assert StartStep(p2, d) == s;
      if s.browser.None? {
        InitiateReadsLaunches(p, p2, s.after, n - 1);
      }
    }
  }

  /** The outcome of `navegar_consulta_causas`, with the verdict of every
      search it made, in order. */
  datatype NavRun = NavRun(result: Result<bool, AcqError>, after: Driver, trace: seq<Probe>)

  /** `navegar_consulta_causas`: up to `n` searches; after each failed one
      the browser is closed and started again. */
  function Navigate(p: Portal, d: Driver, q: Query, n: int): NavRun
    decreases n
  {
    if n <= 0 then NavRun(Err(NavigationExhausted), d, [])
    else
      var (pr, d1) := ConsultaStep(p, d, q);
      if pr.noerror then NavRun(Ok(pr.existe), d1, [pr])
      else
        var d2 := StartStep(p, CloseStep(p, d1)).after;
        var rest := Navigate(p, d2, q, n - 1);
        NavRun(rest.result, rest.after, [pr] + rest.trace)
  }

  /** At most `n` searches are made, one probe each; the result is the
      `existe` of the first search without error, every search before it
      failed, and the loop gives up only after `n` failed searches. */
  ghost predicate NavigateShape(run: NavRun, probes: nat, n: int)
  {
    && |run.trace| <= Max0(n)
    && run.after.probes == probes + |run.trace|
    && (forall i :: 0 <= i < |run.trace| - 1 ==> !run.trace[i].noerror)
    && (run.result.Ok? <==> run.trace != [] && run.trace[|run.trace| - 1].noerror)
    && (run.result.Ok? ==> run.result.value == run.trace[|run.trace| - 1].existe)
    && (run.result.Err? ==>
          && |run.trace| == Max0(n)
          && forall i :: 0 <= i < |run.trace| ==> !run.trace[i].noerror)
  }

  lemma {:induction false} NavigateSpec(p: Portal, d: Driver, q: Query, n: int)
    ensures NavigateShape(Navigate(p, d, q, n), d.probes, n)
    decreases n
  {
    if n > 0 {
      var (pr, d1) := ConsultaStep(p, d, q);
      if !pr.noerror {
        var d2 := StartStep(p, CloseStep(p, d1)).after;
        NavigateSpec(p, d2, q, n - 1);
        NavigatePrepend(Navigate(p, d2, q, n - 1), pr, d.probes, n);
      }
    }
  }

  /** A failed search in front of the remaining `n - 1` rounds. */
  lemma NavigatePrepend(rest: NavRun, pr: Probe, probes: nat, n: int)
    requires n > 0 && !pr.noerror
    requires NavigateShape(rest, probes + 1, n - 1)
    ensures NavigateShape(NavRun(rest.result, rest.after, [pr] + rest.trace), probes, n)
  {
    var trace := [pr] + rest.trace;
    forall i | 0 <= i < |trace| - 1 ensures !trace[i].noerror {
      if i > 0 {
        assert trace[i] == rest.trace[i - 1];
      }
    }
    if rest.trace != [] {
      assert trace[|trace| - 1] == rest.trace[|rest.trace| - 1];
    }
    if rest.result.Err? {
      forall i | 0 <= i < |trace| ensures !trace[i].noerror {
        if i > 0 {
          assert trace[i] == rest.trace[i - 1];
        }
      }
    }
  }

  /** The search loop sees the portal's wizard only through the pages
      shown for the roll and year it types: two portals that differ
      elsewhere give the same run. */
  lemma {:induction false} NavigateReadsTypedPages(p: Portal, p2: Portal, d: Driver, q: Query, n: int)
    requires p2.launch == p.launch && p2.quitFails == p.quitFails
    requires forall s: Session, k: nat :: p2.wizard(s, k, q.rol, q.era) == p.wizard(s, k, q.rol, q.era)
    ensures Navigate(p2, d, q, n) == Navigate(p, d, q, n)
    decreases n
  {
    if n > 0 {
      if d.browser.Some? {
        assert p2.wizard(d.browser.value, d.probes, q.rol, q.era) == p.wizard(d.browser.value, d.probes, q.rol, q.era);
      }
      var c := ConsultaStep(p, d, q);
      assert ConsultaStep(p2, d, q) == c;
      if !c.0.noerror {
        var d2 := StartStep(p, CloseStep(p, c.1)).after;
        assert CloseStep(p2, c.1) == CloseStep(p, c.1);
        assert StartStep(p2, CloseStep(p, c.1)) == StartStep(p, CloseStep(p, c.1));
        NavigateReadsTypedPages(p, p2, d2, q, n - 1);
      }
    }
  }

  /** The outcome of `buscar_siguiente_existente` after at most `fuel`
      searches: the roll found (None when the searches ran out) and every
      roll searched with its verdict. */
  datatype NextRun = NextRun(found: Option<int>, after: Driver, trace: seq<(int, Probe)>)

  /** `buscar_siguiente_existente` as written: each iteration moves to the
      next roll first, so a roll whose search raised is never searched
      again. */
  function NextExisting(p: Portal, d: Driver, rol: int, fuel: nat): NextRun
    decreases fuel
  {
    if fuel == 0 then NextRun(None, d, [])
    else
      var r := rol + 1;
      var (pr, d1) := NewRolStep(p, d, r);
      if !pr.noerror then
        var rest := NextExisting(p, StartStep(p, CloseStep(p, d1)).after, r, fuel - 1);
        NextRun(rest.found, rest.after, [(r, pr)] + rest.trace)
      else if pr.existe then NextRun(Some(r), d1, [(r, pr)])
      else
        var rest := NextExisting(p, d1, r, fuel - 1);
        NextRun(rest.found, rest.after, [(r, pr)] + rest.trace)
  }

  /** The rolls searched are `rol+1, rol+2, ...` one search each, at most
      `fuel` of them; a roll is returned only from a search that went
      through and found a case, the last one, and it is strictly greater
      than the starting roll. */
  ghost predicate SearchedInOrder(run: NextRun, rol: int, fuel: nat)
  {
    && |run.trace| <= fuel
    && (forall i :: 0 <= i < |run.trace| ==> run.trace[i].0 == rol + 1 + i)
    && (run.found.Some? ==>
          && run.trace != []
          && run.found.value == rol + |run.trace|
          && run.found.value > rol
          && run.trace[|run.trace| - 1].1 == Probe(true, true))
    && (forall i :: 0 <= i < |run.trace| - 1 ==> run.trace[i].1 != Probe(true, true))
  }

  lemma {:induction false} NextExistingSpec(p: Portal, d: Driver, rol: int, fuel: nat)
    ensures SearchedInOrder(NextExisting(p, d, rol, fuel), rol, fuel)
    decreases fuel
  {
    if fuel > 0 {
      var r := rol + 1;
      var (pr, d1) := NewRolStep(p, d, r);
      if !pr.noerror {
        var d2 := StartStep(p, CloseStep(p, d1)).after;
        NextExistingSpec(p, d2, r, fuel - 1);
        SearchedPrepend(NextExisting(p, d2, r, fuel - 1), rol, pr, fuel);
      } else if !pr.existe {
        NextExistingSpec(p, d1, r, fuel - 1);
        SearchedPrepend(NextExisting(p, d1, r, fuel - 1), rol, pr, fuel);
      }
    }
  }

  /** A search of roll `rol + 1` that did not find a case, in front of the
      search from that roll on. */
  lemma SearchedPrepend(rest: NextRun, rol: int, pr: Probe, fuel: nat)
    requires fuel > 0 && pr != Probe(true, true)
    requires SearchedInOrder(rest, rol + 1, fuel - 1)
    ensures SearchedInOrder(NextRun(rest.found, rest.after, [(rol + 1, pr)] + rest.trace), rol, fuel)
  {
    var trace := [(rol + 1, pr)] + rest.trace;
    forall i | 0 <= i < |trace| ensures trace[i].0 == rol + 1 + i {
      if i > 0 {
        assert trace[i] == rest.trace[i - 1];
      }
    }
    forall i | 0 <= i < |trace| - 1 ensures trace[i].1 != Probe(true, true) {
      if i > 0 {
        assert trace[i] == rest.trace[i - 1];
      }
    }
    if rest.trace != [] {
      assert trace[|trace| - 1] == rest.trace[|rest.trace| - 1];
    }
  }

  /** The same search, retrying a roll whose search raised instead of
      skipping it. */
  function NextExistingRetrying(p: Portal, d: Driver, rol: int, fuel: nat): NextRun
    decreases fuel
  {
    if fuel == 0 then NextRun(None, d, [])
    else
      var r := rol + 1;
      var (pr, d1) := NewRolStep(p, d, r);
      if !pr.noerror then
        var rest := NextExistingRetrying(p, StartStep(p, CloseStep(p, d1)).after, rol, fuel - 1);
        NextRun(rest.found, rest.after, [(r, pr)] + rest.trace)
      else if pr.existe then NextRun(Some(r), d1, [(r, pr)])
      else
        var rest := NextExistingRetrying(p, d1, r, fuel - 1);
        NextRun(rest.found, rest.after, [(r, pr)] + rest.trace)
  }

  /** Some search of the trace went through on roll `r` and found no case. */
  predicate ConfirmedAbsent(trace: seq<(int, Probe)>, r: int)
  {
    exists i :: 0 <= i < |trace| && trace[i] == (r, Probe(true, false))
  }

  /** A run from roll `rol` that returns a roll returns the next existing
      one: it is past `rol`, the last search found it, and every roll
      strictly between was searched successfully and found empty. */
  ghost predicate FoundNext(run: NextRun, rol: int)
  {
    run.found.Some? ==>
      && run.found.value > rol
      && run.trace != [] && run.trace[|run.trace| - 1] == (run.found.value, Probe(true, true))
      && forall r :: rol < r < run.found.value ==> ConfirmedAbsent(run.trace, r)
  }

  /** With retries, the roll returned is the next existing one. */
  lemma {:induction false} NextExistingRetryingSpec(p: Portal, d: Driver, rol: int, fuel: nat)
    ensures FoundNext(NextExistingRetrying(p, d, rol, fuel), rol)
    decreases fuel
  {
    if fuel > 0 {
      var r := rol + 1;
      var (pr, d1) := NewRolStep(p, d, r);
      if !pr.noerror {
        var d2 := StartStep(p, CloseStep(p, d1)).after;
        NextExistingRetryingSpec(p, d2, rol, fuel - 1);
        FoundNextPrepend(NextExistingRetrying(p, d2, rol, fuel - 1), rol, (r, pr), rol);
      } else if !pr.existe {
        NextExistingRetryingSpec(p, d1, r, fuel - 1);
        FoundNextPrepend(NextExistingRetrying(p, d1, r, fuel - 1), r, (r, pr), rol);
      }
    }
  }

  /** One search more in front of a run: a failed search of the same roll,
      or a successful empty search of the roll just before. */
  lemma FoundNextPrepend(rest: NextRun, from: int, head: (int, Probe), rol: int)
    requires FoundNext(rest, from)
    requires head.0 == rol + 1
    requires from == rol || (from == rol + 1 && head.1 == Probe(true, false))
    ensures FoundNext(NextRun(rest.found, rest.after, [head] + rest.trace), rol)
  {
    var trace := [head] + rest.trace;
    if rest.found.Some? {
      assert trace[|trace| - 1] == rest.trace[|rest.trace| - 1];
      forall x | rol < x < rest.found.value ensures ConfirmedAbsent(trace, x) {
        if x == from {
          assert trace[0] == (x, Probe(true, false));
        } else {
          assert from < x && ConfirmedAbsent(rest.trace, x);
          var i :| 0 <= i < |rest.trace| && rest.trace[i] == (x, Probe(true, false));
          assert trace[i + 1] == rest.trace[i];
        }
      }
    }
  }

  /** A portal whose first re-query raises and whose later ones all find a
      case: the first roll after 10 is never confirmed absent, yet the loop
      as written returns 12, past it. */
  function FlakyPortal(): Portal
  {
    Portal(
      _ => Launched,
      _ => false,
      (_, _, _, _) => WizardPage(false, SelectRaises, SelectRaises, SelectRaises, SelectRaises, false, CellUnreadable),
      (_, k, _) => RequeryPage(k == 0, CellText("1 causa")),
      _ => [],
      _ => None)
  }

  lemma NextExistingSkipsErroredRoll()
    ensures var d := Driver(Some(0), 1, 0, None);
      && NextExisting(FlakyPortal(), d, 10, 5).found == Some(12)
      && !ConfirmedAbsent(NextExisting(FlakyPortal(), d, 10, 5).trace, 11)
      && NextExistingRetrying(FlakyPortal(), d, 10, 5).found == Some(11)
  {
    var p := FlakyPortal();
    var d := Driver(Some(0), 1, 0, None);
    assert !Contains("1 causa", NoResultsMarker);
    var d1 := d.(probes := 1);
    assert NewRolStep(p, d, 11) == (Probe(false, false), d1);
    var d2 := StartStep(p, CloseStep(p, d1)).after;
    assert d2.browser == Some(1) && d2.probes == 1;
    assert NewRolStep(p, d2, 12).0 == Probe(true, true);
    assert NewRolStep(p, d2, 11).0 == Probe(true, true);
    var run := NextExisting(p, d, 10, 5);
    assert run.trace == [(11, Probe(false, false)), (12, Probe(true, true))];
  }

  // ---------------------------------------------------------------------
  // The detail table
  // ---------------------------------------------------------------------

  /** One document row of the detail table. `docUrl` and `dtaDoc` are None
      for a row without a form. */
  datatype Record = Record(
    folio: string, docUrl: Option<string>, dtaDoc: Option<string>,
    anexo: string, etapa: string, tramite: string, desctramite: string,
    foja: string, geo: string)

  /** What a table row turns into: nothing (no cells), a record, or an
      exception (too few cells, or a form without a `dtaDoc` input). */
  datatype RowResult = NoCells | Rec(record: Record) | RowFails

  /** A form action made absolute: anything not starting with "http" is
      taken as a path on the portal host. */
  function AbsoluteUrl(action: string): (r: string)
    ensures StartsWith(action, "http") ==> r == action
    ensures !StartsWith(action, "http") ==> r == PortalHost + action
  {
    if StartsWith(action, "http") then action else PortalHost + action
  }

  function RowRecord(row: seq<Td>): (r: RowResult)
    ensures r == NoCells <==> row == []
    ensures r.Rec? ==> |row| >= 8 && r.record.folio == row[0].text && r.record.geo == row[7].text
    ensures r.Rec? && row[1].forms == [] ==> r.record.docUrl.None? && r.record.dtaDoc.None?
    ensures r.Rec? && row[1].forms != [] ==>
      r.record.docUrl == Some(AbsoluteUrl(row[1].forms[0].action)) && r.record.dtaDoc == row[1].forms[0].dtaDoc
    ensures r == RowFails <==>
      row != [] && (|row| < 8 || (row[1].forms != [] && row[1].forms[0].dtaDoc.None?))
  {
    if row == [] then NoCells
    else if |row| < 2 then RowFails
    else if row[1].forms != [] && row[1].forms[0].dtaDoc.None? then RowFails
    else if |row| < 8 then RowFails
    else
      var (url, dta) :=
        if row[1].forms == [] then (None, None)
        else (Some(AbsoluteUrl(row[1].forms[0].action)), row[1].forms[0].dtaDoc);
      Rec(Record(row[0].text, url, dta, row[2].text, row[3].text, row[4].text,
                 row[5].text, row[6].text, row[7].text))
  }

  /** The records of a table read row by row; None as soon as a row raises. */
  function TableRecords(rows: seq<seq<Td>>): Option<seq<Record>>
  {
    if rows == [] then Some([])
    else
      match TableRecords(rows[..|rows| - 1])
      case None => None
      case Some(data) =>
        match RowRecord(rows[|rows| - 1])
        case NoCells => Some(data)
        case Rec(rec) => Some(data + [rec])
        case RowFails => None
  }

  /** The rows that have at least one cell, in table order. */
  function NonEmptyRows(rows: seq<seq<Td>>): (r: seq<seq<Td>>)
    ensures forall i :: 0 <= i < |r| ==> r[i] != []
  {
    if rows == [] then []
    else if rows[|rows| - 1] == [] then NonEmptyRows(rows[..|rows| - 1])
    else NonEmptyRows(rows[..|rows| - 1]) + [rows[|rows| - 1]]
  }

  /** The table yields records exactly when no row raises, and then one
      record per row with cells, in the table's order. */
  lemma {:induction false} TableRecordsSpec(rows: seq<seq<Td>>)
    ensures TableRecords(rows).Some? <==> forall i :: 0 <= i < |rows| ==> RowRecord(rows[i]) != RowFails
    ensures TableRecords(rows).Some? ==>
      var data := TableRecords(rows).value;
      var ne := NonEmptyRows(rows);
      |data| == |ne| && forall k :: 0 <= k < |ne| ==> RowRecord(ne[k]) == Rec(data[k])
  {
    TableRecordsDefined(rows);
    if TableRecords(rows).Some? {
      TableRecordsRows(rows);
    }
  }

  lemma {:induction false} TableRecordsDefined(rows: seq<seq<Td>>)
    ensures TableRecords(rows).Some? <==> forall i :: 0 <= i < |rows| ==> RowRecord(rows[i]) != RowFails
  {
    if rows != [] {
      var init := rows[..|rows| - 1];
      TableRecordsDefined(init);
      assert forall i :: 0 <= i < |init| ==> init[i] == rows[i];
    }
  }

  lemma {:induction false} TableRecordsRows(rows: seq<seq<Td>>)
    requires TableRecords(rows).Some?
    ensures var data := TableRecords(rows).value;
      var ne := NonEmptyRows(rows);
      |data| == |ne| && forall k :: 0 <= k < |ne| ==> RowRecord(ne[k]) == Rec(data[k])
  {
    if rows != [] {
      var init := rows[..|rows| - 1];
      var last := rows[|rows| - 1];
      TableRecordsRows(init);
      var data0 := TableRecords(init).value;
      var ne0 := NonEmptyRows(init);
      if last != [] {
        var data := TableRecords(rows).value;
        var ne := NonEmptyRows(rows);
        assert ne == ne0 + [last];
        assert data == data0 + [RowRecord(last).record];
        forall k | 0 <= k < |ne| ensures RowRecord(ne[k]) == Rec(data[k]) {
          if k < |ne0| {
            assert ne[k] == ne0[k] && data[k] == data0[k];
          }
        }
      }
    }
  }

  /** Cookies as `{c['name']: c['value'] for c in jar}`: the last value
      given for a name wins. */
  function CookieMap(jar: seq<(string, string)>): (m: map<string, string>)
    ensures forall k :: k in m <==> exists i :: 0 <= i < |jar| && jar[i].0 == k
    ensures jar != [] ==> m[jar[|jar| - 1].0] == jar[|jar| - 1].1
  {
    if jar == [] then map[]
    else
      var last := jar[|jar| - 1];
      var m0 := CookieMap(jar[..|jar| - 1]);
      assert forall i :: 0 <= i < |jar| - 1 ==> jar[..|jar| - 1][i] == jar[i];
      m0[last.0 := last.1]
  }

  /** `loadDetalleCausa`: without a browser it fails; otherwise the cookies
      are taken from the session and the detail table is read. */
  function LoadDetail(p: Portal, d: Driver): (Option<seq<Record>>, Driver)
  {
    if d.browser.None? then (None, d)
    else
      var s := d.browser.value;
      var d1 := d.(cookies := Some(CookieMap(p.cookieJar(s))));
      match p.table(s)
      case None => (None, d1)
      case Some(rows) => (TableRecords(rows), d1)
  }

  // ---------------------------------------------------------------------
  // Downloading one document
  // ---------------------------------------------------------------------

  /** What the HTTP request for a document meets: an answer with its
      status code, or an exception from `requests.post` (no connection, a
      timeout), which nothing catches. */
  datatype Reply = Status(code: int) | PostRaised

  /** `requests.post(doc_url, data={'dtaDoc': …}, cookies=…)`. */
  type Post = (string, string, map<string, string>) -> Reply

  /** What happens to one row of the table when its document is asked for. */
  datatype Download =
    | Raised                  // the row index is out of range, or no cookies were ever loaded
    | NoDocument              // the row has no document URL or no dtaDoc
    | RequestRaised           // the request itself raised; the exception leaves the call
    | HttpStatus(code: int)   // the request answered with another status; nothing written
    | Saved(name: string)     // the response was written to this file

  /** A row has a document when both its URL and its dtaDoc are non-empty
      strings. */
  predicate HasDocument(e: Record)
  {
    e.docUrl.Some? && e.docUrl.value != "" && e.dtaDoc.Some? && e.dtaDoc.value != ""
  }

  /** The file name of a downloaded document: the folio without its
      surrounding brackets, an underscore and the row index as given. */
  function PdfName(folio: string, fila: int): string
  {
    StripBy(folio, IsBracket) + "_" + IntToString(fila) + ".pdf"
  }

  predicate IsBracket(c: char)
  {
    c == '[' || c == ']'
  }

  /** Python's `detail[fila]`: negative indices count from the end. */
  function PyIndex<T>(s: seq<T>, i: int): Option<T>
  {
    if 0 <= i < |s| then Some(s[i])
    else if -|s| <= i < 0 then Some(s[|s| + i])
    else None
  }

  // ---------------------------------------------------------------------
  // The scraper object
  // ---------------------------------------------------------------------

  class ConsultaCausas {
    const portal: Portal
    var browser: Option<Session>
    var launches: nat
    var probes: nat
    var cookies: Option<map<string, string>>

    function State(): Driver
      reads this
    {
      Driver(browser, launches, probes, cookies)
    }

    constructor (portal: Portal)
      ensures this.portal == portal
      ensures State() == Driver(None, 0, 0, None)
    {
      this.portal := portal;
      browser := None;
      launches := 0;
      probes := 0;
      cookies := None;
    }

    method StartBrowser() returns (session: Option<Session>)
      modifies this
      ensures Started(session, State()) == StartStep(portal, old(State()))
    {
      var id := launches;
      launches := launches + 1;
      match portal.launch(id)
      case LaunchFailed =>
        browser := None;
        session := None;
      case NavigationFailed =>
        browser := Some(id);
        session := None;
      case Launched =>
        browser := Some(id);
        session := browser;
    }

    method Close()
      modifies this
      ensures State() == CloseStep(portal, old(State()))
    {
      if browser.Some? {
        if !portal.quitFails(browser.value) {
          browser := None;
        }
      }
    }

    method GoConsultaCausas(q: Query) returns (pr: Probe)
      modifies this
      ensures (pr, State()) == ConsultaStep(portal, old(State()), q)
    {
      if browser.None? {
        pr := Probe(false, false);
      } else {
        pr := WizardProbe(portal.wizard(browser.value, probes, q.rol, q.era), q);
      }
      probes := probes + 1;
    }

    method GoConsultaNewRol(rol: int) returns (pr: Probe)
      modifies this
      ensures (pr, State()) == NewRolStep(portal, old(State()), rol)
    {
      if browser.None? {
        pr := Probe(false, false);
      } else {
        var page := portal.requery(browser.value, probes, rol);
        pr := if page.entryFails then Probe(false, false) else CellProbe(page.cell);
      }
      probes := probes + 1;
    }

    method IniciarNavegador(intentos: int) returns (r: Result<Session, AcqError>)
      modifies this
      ensures StartRun(r, State()) == Initiate(portal, old(State()), intentos)
    {
      var i := 0;
      while i < intentos
        invariant Initiate(portal, State(), intentos - i) == Initiate(portal, old(State()), intentos)
        decreases intentos - i
      {
        var session := StartBrowser();
        if session.Some? {
          return Ok(session.value);
        }
        i := i + 1;
      }
      return Err(BrowserStartFailed);
    }

    method NavegarConsultaCausas(q: Query, maxReintentos: int) returns (r: Result<bool, AcqError>)
      modifies this
      ensures var run := Navigate(portal, old(State()), q, maxReintentos);
        r == run.result && State() == run.after
    {
      var i := 0;
      while i < maxReintentos
        invariant var run := Navigate(portal, State(), q, maxReintentos - i);
          var whole := Navigate(portal, old(State()), q, maxReintentos);
          run.result == whole.result && run.after == whole.after
        decreases maxReintentos - i
      {
        var pr := GoConsultaCausas(q);
        if pr.noerror {
          return Ok(pr.existe);
        }
        Close();
        var _ := StartBrowser();
        i := i + 1;
      }
      return Err(NavigationExhausted);
    }

    /** `buscar_siguiente_existente`, as written, with at most `fuel`
        searches (the source loops until a case is found). */
    method BuscarSiguienteExistente(rol: int, fuel: nat) returns (found: Option<int>)
      modifies this
      ensures var run := NextExisting(portal, old(State()), rol, fuel);
        found == run.found && State() == run.after
    {
      var r := rol;
      var left: nat := fuel;
      while left > 0
        invariant left <= fuel
        invariant var run := NextExisting(portal, State(), r, left);
          var whole := NextExisting(portal, old(State()), rol, fuel);
          run.found == whole.found && run.after == whole.after
        decreases left
      {
        r := r + 1;
        var pr := GoConsultaNewRol(r);
        left := left - 1;
        if !pr.noerror {
          Close();
          var _ := StartBrowser();
        } else if pr.existe {
          return Some(r);
        }
      }
      return None;
    }

    method LoadDetalleCausa() returns (data: Option<seq<Record>>)
      modifies this
      ensures (data, State()) == LoadDetail(portal, old(State()))
    {
      if browser.None? {
        return None;
      }
      var s := browser.value;
      cookies := Some(CookieMap(portal.cookieJar(s)));
      var table := portal.table(s);
      if table.None? {
        return None;
      }
      var rows := table.value;
      var acc: seq<Record> := [];
      var i := 0;
      while i < |rows|
        invariant 0 <= i <= |rows|
        invariant TableRecords(rows[..i]) == Some(acc)
      {
        assert rows[..i + 1][..i] == rows[..i];
        match RowRecord(rows[i]) {
          case NoCells =>
          case Rec(rec) =>
            acc := acc + [rec];
          case RowFails =>
            TableRecordsSpec(rows);
            return None;
        }
        i := i + 1;
      }
      assert rows[..|rows|] == rows;
      return Some(acc);
    }

    /** `descargar_pdf(detalle, fila)` with `post` standing for the HTTP
        request. */
    method DescargarPdf(detalle: seq<Record>, fila: int, post: Post) returns (outcome: Download)
      ensures outcome == Raised <==> cookies.None? || PyIndex(detalle, fila).None?
      ensures cookies.Some? && PyIndex(detalle, fila).Some? ==>
        var e := PyIndex(detalle, fila).value;
        && (outcome == NoDocument <==> !HasDocument(e))
        && (HasDocument(e) ==>
              var reply := post(e.docUrl.value, e.dtaDoc.value, cookies.value);
              && (outcome.Saved? <==> reply == Status(200))
              && (outcome.Saved? ==> outcome.name == PdfName(e.folio, fila))
              && (outcome.HttpStatus? <==> reply.Status? && reply.code != 200)
              && (outcome.HttpStatus? ==> outcome.code == reply.code)
              && (outcome == RequestRaised <==> reply == PostRaised))
    {
      if cookies.None? {
        return Raised;
      }
      var entry := PyIndex(detalle, fila);
      if entry.None? {
        return Raised;
      }
      var e := entry.value;
      if e.docUrl.None? || e.docUrl.value == "" || e.dtaDoc.None? || e.dtaDoc.value == "" {
        return NoDocument;
      }
      var reply := post(e.docUrl.value, e.dtaDoc.value, cookies.value);
      if reply.PostRaised? {
        return RequestRaised;
      }
      if reply.code == 200 {
        return Saved(PdfName(e.folio, fila));
      }
      return HttpStatus(reply.code);
    }
  }
}
