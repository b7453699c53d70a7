/** The `get_demanda` tool of mcp_app/tools/get_demanda.py: from a case
    identifier such as "C-4583-2025" it starts a browser, runs the civil
    search with the roll and year taken from the identifier, opens the
    detail page and returns the detail table. Every failure inside the
    body is swallowed and gives None; the cleanup closes the scraper and
    quits the first browser, and only a failure of that last quit escapes. */
module GetDemanda {
  import opened Common
  import opened Causas

  /** What `run` ends with: a returned value (None after any failure) or an
      exception raised by the cleanup's final `browser.quit()`. */
  datatype RunOutcome = Returned(table: Option<seq<Record>>) | CleanupRaised

  /** `params.get(key, default)`. */
  function GetOr(params: map<string, Json>, key: string, default: Json): (r: Json)
    ensures key in params ==> r == params[key]
    ensures key !in params ==> r == default
  {
    if key in params then params[key] else default
  }

  /** `RIT.split("-")[1]` and `RIT.split("-")[2]`: the roll and the year;
      None when the identifier is not a string or has fewer than three
      dash-separated fields (the indexing raises). */
  function ParseRit(rit: Json): (r: Option<(string, string)>)
    ensures r.Some? <==> rit.JStr? && |SplitOn(rit.s, '-')| >= 3
    ensures r.Some? ==> r.value == (SplitOn(rit.s, '-')[1], SplitOn(rit.s, '-')[2])
    ensures r.Some? ==> '-' !in r.value.0 && '-' !in r.value.1
  {
    if rit.JStr? && |SplitOn(rit.s, '-')| >= 3 then
      var parts := SplitOn(rit.s, '-');
      Some((parts[1], parts[2]))
    else None
  }

  /** The search `run` makes: always the "Civil" competence, the court and
      tribunal as given (None when absent), the case type defaulting to
      "C", and the roll and year from the identifier. */
  function DemandaQuery(params: map<string, Json>, rol: string, era: string): Query
  {
    Query(JStr("Civil"), GetOr(params, "CORTE", JNull), GetOr(params, "Tribunal", JNull),
          GetOr(params, "conTipoCausa", JStr("C")), rol, era)
  }

  /** The cleanup: `consulta.close()` (its own failures are caught), then
      `browser.quit()` on the first browser when one was obtained. */
  function Cleanup(p: Portal, first: Option<Session>, value: Option<seq<Record>>): RunOutcome
  {
    if first.Some? && p.quitFails(first.value) then CleanupRaised else Returned(value)
  }

  /** `run(params)` against the portal `p`, starting from a fresh scraper. */
  function DemandaSpec(p: Portal, params: map<string, Json>): RunOutcome
  {
    var d0 := Driver(None, 0, 0, None);
    var init := Initiate(p, d0, MaxRetries);
    if init.result.Err? then Cleanup(p, None, None)
    else
      var first := Some(init.result.value);
      match ParseRit(GetOr(params, "RIT", JNull))
      case None => Cleanup(p, first, None)
      case Some((rol, era)) =>
        var nav := Navigate(p, init.after, DemandaQuery(params, rol, era), MaxRetries);
        if nav.result.Err? then Cleanup(p, first, None)
        else Cleanup(p, first, LoadDetail(p, nav.after).0)
  }

  method Run(p: Portal, params: map<string, Json>) returns (r: RunOutcome)
    ensures r == DemandaSpec(p, params)
  {
    var consulta := new ConsultaCausas(p);
    var init := consulta.IniciarNavegador(MaxRetries);
    if init.Err? {
      consulta.Close();
      return Returned(None);
    }
    var first := Some(init.value);
    var rit := GetOr(params, "RIT", JNull);
    var parsed := ParseRit(rit);
    if parsed.None? {
      consulta.Close();
      return Cleanup(p, first, None);
    }
    var (rol, era) := parsed.value;
    var existe := consulta.NavegarConsultaCausas(DemandaQuery(params, rol, era), MaxRetries);
    if existe.Err? {
      consulta.Close();
      return Cleanup(p, first, None);
    }
    var table := consulta.LoadDetalleCausa();
    consulta.Close();
    return Cleanup(p, first, table);
  }

  /** The year always comes from the identifier: a `conEraCausa` parameter
      changes nothing, although the wizard pages depend on the year typed
      (see `SearchTypesRitFields`). */
  lemma YearComesFromRit(p: Portal, params: map<string, Json>, era: Json)
    ensures DemandaSpec(p, params["conEraCausa" := era]) == DemandaSpec(p, params)
  {
    var params' := params["conEraCausa" := era];
    assert forall k :: k != "conEraCausa" ==> GetOr(params', k, JNull) == GetOr(params, k, JNull);
    assert GetOr(params', "conTipoCausa", JStr("C")) == GetOr(params, "conTipoCausa", JStr("C"));
    assert "RIT" != "conEraCausa" && "CORTE" != "conEraCausa" && "Tribunal" != "conEraCausa";
    assert DemandaQuery(params', "", "") == DemandaQuery(params, "", "");
  }

  /** The search types the roll and the year read from the identifier:
      the run sees the portal's search wizard only through the pages it
      shows for that roll and year, so a portal that differs on any other
      roll or year gives the same outcome. */
  lemma SearchTypesRitFields(p: Portal, wizard: (Session, nat, string, string) -> WizardPage,
                             params: map<string, Json>)
    requires ParseRit(GetOr(params, "RIT", JNull)).Some?
    requires var (rol, era) := ParseRit(GetOr(params, "RIT", JNull)).value;
      forall s: Session, k: nat :: wizard(s, k, rol, era) == p.wizard(s, k, rol, era)
    ensures DemandaSpec(p.(wizard := wizard), params) == DemandaSpec(p, params)
  {
    var p2 := p.(wizard := wizard);
    var d0 := Driver(None, 0, 0, None);
    InitiateReadsLaunches(p, p2, d0, MaxRetries);
    var init := Initiate(p, d0, MaxRetries);
    if init.result.Ok? {
      var (rol, era) := ParseRit(GetOr(params, "RIT", JNull)).value;
      NavigateReadsTypedPages(p, p2, init.after, DemandaQuery(params, rol, era), MaxRetries);
    }
  }

  /** A missing or malformed identifier never yields a table. */
  lemma MalformedRitGivesNone(p: Portal, params: map<string, Json>)
    requires ParseRit(GetOr(params, "RIT", JNull)).None?
    ensures DemandaSpec(p, params) in {Returned(None), CleanupRaised}
  {
  }

  /** A table is returned only after a browser started, the identifier
      parsed and a search went through; it is exactly what the detail page
      gave. */
  lemma TableOnlyAfterSearch(p: Portal, params: map<string, Json>)
    requires DemandaSpec(p, params).Returned? && DemandaSpec(p, params).table.Some?
    ensures var init := Initiate(p, Driver(None, 0, 0, None), MaxRetries);
      && init.result.Ok?
      && var parsed := ParseRit(GetOr(params, "RIT", JNull));
      && parsed.Some?
      && var nav := Navigate(p, init.after, DemandaQuery(params, parsed.value.0, parsed.value.1), MaxRetries);
      && nav.result.Ok?
      && DemandaSpec(p, params).table == LoadDetail(p, nav.after).0
  {
  }

  /** An identifier `tipo-rol-era` whose fields have no dash gives back
      its roll and year. */
  lemma ParseRitFields(tipo: string, rol: string, era: string)
    requires '-' !in tipo && '-' !in rol && '-' !in era
    ensures ParseRit(JStr(tipo + "-" + rol + "-" + era)) == Some((rol, era))
  {
    SplitOnNone(era, '-');
    SplitOnField(rol, '-', era);
    assert tipo + "-" + rol + "-" + era == tipo + ['-'] + (rol + ['-'] + era);
    SplitOnField(tipo, '-', rol + ['-'] + era);
  }

  /** "C-4583-2025" is roll "4583" of year "2025". */
  lemma ParseRitExample()
    ensures ParseRit(JStr("C-4583-2025")) == Some(("4583", "2025"))
  {
    assert "C-4583-2025" == "C" + "-" + "4583" + "-" + "2025";
    ParseRitFields("C", "4583", "2025");
  }
}
