/**
 * The per-browser-session registry of app.py and the handlers that work on
 * it: initializeSession, cleanUpSession, predict, analyze and download.
 *
 * The registry is the module-level dict `Sessions`, which the handlers
 * update in place; it is the `sessions` field of a SessionStore. A session
 * record is only ever reached through that dict, so it is a value here, and
 * assigning one of its fields replaces the entry. Analysis figures are
 * pyplot figure objects; the store keeps two ghost records of them: the set
 * of every figure plotAnalysis has produced, and the log of pyplot.close
 * calls in the order they happened.
 */
module Sessions {
  import opened Options
  import opened Decimal
  import opened Ecg

  /** A figure produced by plotAnalysis for one signal. */
  class Figure {
    const data: Signal

    constructor (data: Signal)
      ensures this.data == data
    {
      this.data := data;
    }
  }

  /** plotAnalysis: a new figure annotating lead I of `data`. */
  method PlotAnalysis(data: Signal) returns (f: Figure)
    ensures fresh(f) && f.data == data
  {
    f := new Figure(data);
  }

  /** The state of one browser tab (the fields of class Session). */
  datatype Session = Session(
    counter: int,
    selected: nat,
    results: seq<Signal>,
    analysis: Option<Figure>,
    ecgType: Option<EcgType>,
    /** The path of the session's private temporary directory. */
    tempDirectory: string)
  {
    /** The cached figure shows the selected signal. */
    ghost predicate Coherent() {
      analysis.Some? ==> selected < |results| && analysis.value.data == results[selected]
    }
  }

  /** What a successful predict hands back to the page: the gallery and the analysis figure. */
  datatype Prediction = Prediction(gallery: seq<GalleryItem>, analysis: Figure)

  /** Why predict failed: the generator raised, or it returned no signal (IndexError on Results[0]). */
  datatype PredictError = GeneratorFailed(reason: string) | NoResults

  /** Why download failed: no session under that hash (KeyError), or no signal at Selected (IndexError). */
  datatype DownloadError = UnknownSession | NoSuchSignal

  /** The file download writes: dataToCSV or dataToPDF with these arguments. */
  datatype Export =
    | CsvExport(path: string, signal: Signal, ecgType: Option<EcgType>)
    | PdfExport(path: string, signal: Signal, ecgType: Option<EcgType>, leads: seq<string>,
                format: OutputFormat, ecgNumber: nat)

  /**
   * The gallery loop of predict: one image per signal, in order, captioned
   * with its 1-based number.
   */
  method BuildGallery(results: seq<Signal>, t: EcgType) returns (plotList: seq<GalleryItem>)
    ensures |plotList| == |results|
    ensures forall k :: 0 <= k < |results| ==>
      && plotList[k].image == WebP(results[k], t) && plotList[k].caption == Label(k + 1)
      && ParseLabel(plotList[k].caption) == Some(k + 1)
  {
    plotList := [];
    var ecgNumber: nat := 1;
    var i := 0;
    while i < |results|
      invariant 0 <= i <= |results| && ecgNumber == i + 1
      invariant |plotList| == i
      invariant forall k :: 0 <= k < i ==>
        && plotList[k].image == WebP(results[k], t) && plotList[k].caption == Label(k + 1)
        && ParseLabel(plotList[k].caption) == Some(k + 1)
    {
      LabelRoundTrip(ecgNumber);
      plotList := plotList + [GalleryItem(WebP(results[i], t), Label(ecgNumber))];
      ecgNumber := ecgNumber + 1;
      i := i + 1;
    }
  }

  // ---------------------------------------------------------------------
  // Figure bookkeeping: which figures are cached, closed or leaked
  // ---------------------------------------------------------------------

  /** The cached analysis figure of each session. */
  function Analyses(sessions: map<string, Session>): (cached: map<string, Option<Figure>>)
    ensures cached.Keys == sessions.Keys
    ensures forall k :: k in sessions ==> cached[k] == sessions[k].analysis
  {
    map k | k in sessions :: sessions[k].analysis
  }

  /** The temporary directory of each session. */
  function Directories(sessions: map<string, Session>): (dirs: map<string, string>)
    ensures dirs.Keys == sessions.Keys
    ensures forall k :: k in sessions ==> dirs[k] == sessions[k].tempDirectory
  {
    map k | k in sessions :: sessions[k].tempDirectory
  }

  /** Every session directory lies under the root, and no two sessions share one. */
  ghost predicate DirectoriesOwned(root: string, dirs: map<string, string>)
  {
    && (forall a, b :: a in dirs && b in dirs && a != b ==> dirs[a] != dirs[b])
    && (forall a :: a in dirs ==> IsUnder(dirs[a], root))
  }

  /** Replacing one record changes only that session's entries of Analyses and Directories. */
  lemma UpdateRecord(sessions: map<string, Session>, id: string, s: Session)
    ensures Analyses(sessions[id := s]) == Analyses(sessions)[id := s.analysis]
    ensures Directories(sessions[id := s]) == Directories(sessions)[id := s.tempDirectory]
  {
  }

  /** A record that keeps its directory changes only that session's entry of Analyses. */
  lemma UpdateRecordFigure(sessions: map<string, Session>, id: string, s: Session)
    requires id in sessions && s.tempDirectory == sessions[id].tempDirectory
    ensures Analyses(sessions[id := s]) == Analyses(sessions)[id := s.analysis]
    ensures Directories(sessions[id := s]) == Directories(sessions)
  {
    UpdateRecord(sessions, id, s);
  }

  /** A new directory under the root that no session uses keeps the directories owned. */
  lemma AddDirectory(root: string, dirs: map<string, string>, id: string, d: string)
    requires DirectoriesOwned(root, dirs) && IsUnder(d, root)
    requires forall k :: k in dirs ==> dirs[k] != d
    ensures DirectoriesOwned(root, dirs[id := d])
  {
  }

  /** A record that keeps its figure and directory leaves Analyses and Directories as they were. */
  lemma UpdateRecordKeeps(sessions: map<string, Session>, id: string, s: Session)
    requires id in sessions
    requires s.analysis == sessions[id].analysis && s.tempDirectory == sessions[id].tempDirectory
    ensures Analyses(sessions[id := s]) == Analyses(sessions)
    ensures Directories(sessions[id := s]) == Directories(sessions)
  {
    UpdateRecord(sessions, id, s);
  }

  /** Removing one record removes that session's entries of Analyses and Directories. */
  lemma RemoveRecord(sessions: map<string, Session>, id: string)
    ensures Analyses(sessions - {id}) == Analyses(sessions) - {id}
    ensures Directories(sessions - {id}) == Directories(sessions) - {id}
  {
  }

  /** The figures pyplot.close is called on when a session drops `analysis`: none, or that one. */
  function Closes(analysis: Option<Figure>): seq<Figure>
  {
    if analysis.Some? then [analysis.value] else []
  }

  /** The figure a session holds: none, or its cached one. */
  function Held(analysis: Option<Figure>): set<Figure>
  {
    if analysis.Some? then {analysis.value} else {}
  }

  /**
   * The cached figures were produced by plotAnalysis, are still open, and
   * belong to one session each; the close log names produced figures, each
   * once.
   */
  ghost predicate FiguresOwned(figures: set<Figure>, closed: seq<Figure>, cached: map<string, Option<Figure>>)
  {
    && (forall k :: k in cached && cached[k].Some? ==> cached[k].value in figures && cached[k].value !in closed)
    && (forall a, b :: a in cached && b in cached && a != b && cached[a].Some? ==> cached[a] != cached[b])
    && (forall i :: 0 <= i < |closed| ==> closed[i] in figures)
    && (forall i, j :: 0 <= i < j < |closed| ==> closed[i] != closed[j])
  }

  /** Figures that were produced, are not closed, and no session caches any more. */
  ghost function LeakedFigures(figures: set<Figure>, closed: seq<Figure>, cached: map<string, Option<Figure>>): set<Figure>
  {
    set f | f in figures && f !in closed && Some(f) !in cached.Values
  }

  /**
   * Closing the figure of session `id` and then clearing it or removing the
   * session keeps every figure owned once and leaks nothing.
   */
  lemma CloseKeepsFiguresOwned(figures: set<Figure>, closed: seq<Figure>, cached: map<string, Option<Figure>>,
                               id: string, after: map<string, Option<Figure>>)
    requires FiguresOwned(figures, closed, cached) && id in cached
    requires after == cached[id := None] || after == cached - {id}
    ensures var closed' := closed + Closes(cached[id]);
      FiguresOwned(figures, closed', after)
      && LeakedFigures(figures, closed', after) == LeakedFigures(figures, closed, cached)
  {
    var closed' := closed + Closes(cached[id]);
    forall f | f in figures
      ensures f in LeakedFigures(figures, closed', after) <==> f in LeakedFigures(figures, closed, cached)
    {
      if Some(f) in cached.Values && Some(f) != cached[id] {
        var k :| k in cached && cached[k] == Some(f);
        assert k in after && after[k] == Some(f);
      }
      if Some(f) in after.Values {
        var k :| k in after && after[k] == Some(f);
        assert k != id && cached[k] == Some(f);
      }
    }
  }

  /**
   * Overwriting the figure of session `id` with `x` (None, or a figure just
   * produced) keeps every figure owned once; the figure it replaces, if any,
   * is leaked.
   */
  lemma OverwriteLeaksPrevious(figures: set<Figure>, closed: seq<Figure>, cached: map<string, Option<Figure>>,
                               id: string, x: Option<Figure>)
    requires FiguresOwned(figures, closed, cached)
    requires x.Some? ==> x.value !in figures
    ensures var figures' := if x.Some? then figures + {x.value} else figures;
      FiguresOwned(figures', closed, cached[id := x])
      && LeakedFigures(figures', closed, cached[id := x]) ==
         LeakedFigures(figures, closed, cached) + (if id in cached then Held(cached[id]) else {})
  {
    var figures' := if x.Some? then figures + {x.value} else figures;
    var after := cached[id := x];
    var replaced := if id in cached then Held(cached[id]) else {};
    forall f | f in figures'
      ensures f in LeakedFigures(figures', closed, after) <==>
              f in LeakedFigures(figures, closed, cached) + replaced
    {
      if Some(f) in cached.Values && (id !in cached || Some(f) != cached[id]) {
        var k :| k in cached && cached[k] == Some(f);
        assert k in after && after[k] == Some(f);
      }
      if Some(f) == x {
        assert after[id] == Some(f);
      } else if Some(f) in after.Values {
        var k :| k in after && after[k] == Some(f);
        assert k != id && cached[k] == Some(f);
      }
    }
  }

  /**
   * Closing the figure of session `id` and caching the new figure `f` in its
   * place keeps every figure owned once and leaks nothing.
   */
  lemma ReplaceFigure(figures: set<Figure>, closed: seq<Figure>, cached: map<string, Option<Figure>>,
                      id: string, f: Figure)
    requires FiguresOwned(figures, closed, cached) && id in cached && f !in figures
    ensures var closed' := closed + Closes(cached[id]);
      FiguresOwned(figures + {f}, closed', cached[id := Some(f)])
      && LeakedFigures(figures + {f}, closed', cached[id := Some(f)]) == LeakedFigures(figures, closed, cached)
  {
    var closed' := closed + Closes(cached[id]);
    CloseKeepsFiguresOwned(figures, closed, cached, id, cached[id := None]);
    OverwriteLeaksPrevious(figures, closed', cached[id := None], id, Some(f));
    assert cached[id := None][id := Some(f)] == cached[id := Some(f)];
  }

  // ---------------------------------------------------------------------
  // The registry invariant and the transitions that keep it
  // ---------------------------------------------------------------------

  /** Session directories are owned one per session and cached figures are owned once. */
  ghost predicate StoreValid(root: string, sessions: map<string, Session>, figures: set<Figure>, closed: seq<Figure>)
  {
    DirectoriesOwned(root, Directories(sessions)) && FiguresOwned(figures, closed, Analyses(sessions))
  }

  /** Figures that were produced, are not closed, and no session refers to any more. */
  ghost function StoreLeaked(sessions: map<string, Session>, figures: set<Figure>, closed: seq<Figure>): set<Figure>
  {
    LeakedFigures(figures, closed, Analyses(sessions))
  }

  /** A new record in a directory no session uses; the figure it replaces, if any, is leaked. */
  lemma AddRecordValid(root: string, sessions: map<string, Session>, figures: set<Figure>, closed: seq<Figure>,
                       id: string, s: Session)
    requires StoreValid(root, sessions, figures, closed)
    requires s.analysis.None? && IsUnder(s.tempDirectory, root)
    requires forall k :: k in sessions ==> sessions[k].tempDirectory != s.tempDirectory
    ensures StoreValid(root, sessions[id := s], figures, closed)
    ensures StoreLeaked(sessions[id := s], figures, closed) ==
      StoreLeaked(sessions, figures, closed) + (if id in sessions then Held(sessions[id].analysis) else {})
  {
    UpdateRecord(sessions, id, s);
    AddDirectory(root, Directories(sessions), id, s.tempDirectory);
    OverwriteLeaksPrevious(figures, closed, Analyses(sessions), id, None);
  }

  /** Removing a record after closing its figure leaks nothing. */
  lemma RemoveRecordValid(root: string, sessions: map<string, Session>, figures: set<Figure>, closed: seq<Figure>,
                          id: string)
    requires StoreValid(root, sessions, figures, closed) && id in sessions
    ensures StoreValid(root, sessions - {id}, figures, closed + Closes(sessions[id].analysis))
    ensures StoreLeaked(sessions - {id}, figures, closed + Closes(sessions[id].analysis)) ==
      StoreLeaked(sessions, figures, closed)
  {
    RemoveRecord(sessions, id);
    CloseKeepsFiguresOwned(figures, closed, Analyses(sessions), id, Analyses(sessions) - {id});
  }

  /** Changing a record but not its figure or directory changes no figure's status. */
  lemma KeepRecordValid(root: string, sessions: map<string, Session>, figures: set<Figure>, closed: seq<Figure>,
                        id: string, s: Session)
    requires StoreValid(root, sessions, figures, closed) && id in sessions
    requires s.analysis == sessions[id].analysis && s.tempDirectory == sessions[id].tempDirectory
    ensures StoreValid(root, sessions[id := s], figures, closed)
    ensures StoreLeaked(sessions[id := s], figures, closed) == StoreLeaked(sessions, figures, closed)
  {
    UpdateRecordKeeps(sessions, id, s);
  }

  /** Caching a new figure over the record's figure without closing it leaks the one replaced. */
  lemma OverwriteRecordValid(root: string, sessions: map<string, Session>, figures: set<Figure>, closed: seq<Figure>,
                             id: string, s: Session)
    requires StoreValid(root, sessions, figures, closed) && id in sessions
    requires s.tempDirectory == sessions[id].tempDirectory
    requires s.analysis.Some? && s.analysis.value !in figures
    ensures StoreValid(root, sessions[id := s], figures + Held(s.analysis), closed)
    ensures StoreLeaked(sessions[id := s], figures + Held(s.analysis), closed) ==
      StoreLeaked(sessions, figures, closed) + Held(sessions[id].analysis)
  {
    UpdateRecordFigure(sessions, id, s);
    OverwriteLeaksPrevious(figures, closed, Analyses(sessions), id, s.analysis);
  }

  /** Closing the record's figure and caching a new one, or none, leaks nothing. */
  lemma ReplaceRecordValid(root: string, sessions: map<string, Session>, figures: set<Figure>, closed: seq<Figure>,
                           id: string, s: Session)
    requires StoreValid(root, sessions, figures, closed) && id in sessions
    requires s.tempDirectory == sessions[id].tempDirectory
    requires s.analysis.Some? ==> s.analysis.value !in figures
    ensures StoreValid(root, sessions[id := s], figures + Held(s.analysis), closed + Closes(sessions[id].analysis))
    ensures StoreLeaked(sessions[id := s], figures + Held(s.analysis), closed + Closes(sessions[id].analysis)) ==
      StoreLeaked(sessions, figures, closed)
  {
    UpdateRecordFigure(sessions, id, s);
    if s.analysis.Some? {
      ReplaceFigure(figures, closed, Analyses(sessions), id, s.analysis.value);
    } else {
      CloseKeepsFiguresOwned(figures, closed, Analyses(sessions), id, Analyses(sessions)[id := None]);
      assert figures + Held(s.analysis) == figures;
    }
  }

  // ---------------------------------------------------------------------
  // The registry and its handlers
  // ---------------------------------------------------------------------

  /** The registry of live sessions, keyed by the session hash. */
  class SessionStore {
    /** The process-wide temporary directory every session directory lives in. */
    const root: string
    var sessions: map<string, Session>
    /** Every figure plotAnalysis has produced for a session. */
    ghost var figures: set<Figure>
    /** The figures passed to pyplot.close, in order. */
    ghost var closed: seq<Figure>

    ghost predicate Valid()
      reads this
    {
      StoreValid(root, sessions, figures, closed)
    }

    ghost function Leaked(): set<Figure>
      reads this
    {
      StoreLeaked(sessions, figures, closed)
    }

    constructor (root: string)
      ensures Valid() && this.root == root
      ensures sessions == map[] && figures == {} && closed == []
    {
      this.root := root;
      sessions := map[];
      figures := {};
      closed := [];
    }

    /**
     * initializeSession: a fresh record for `id` in a new directory under the
     * root, replacing any earlier one. The replaced record's figure is not
     * closed.
     */
    method InitializeSession(id: string, tempDirectory: string)
      requires Valid()
      requires IsUnder(tempDirectory, root)
      requires forall k :: k in sessions ==> sessions[k].tempDirectory != tempDirectory
      modifies this
      ensures Valid()
      ensures sessions == old(sessions)[id := Session(0, 0, [], None, None, tempDirectory)]
      ensures figures == old(figures) && closed == old(closed)
      ensures Leaked() == old(Leaked()) +
        (if id in old(sessions) then Held(old(sessions[id].analysis)) else {})
    {
      AddRecordValid(root, sessions, figures, closed, id, Session(0, 0, [], None, None, tempDirectory));
      sessions := sessions[id := Session(0, 0, [], None, None, tempDirectory)];
    }

    /**
     * cleanUpSession: closes the figure of `id` if it has one and removes
     * the entry; nothing happens when `id` is not registered.
     */
    method CleanUpSession(id: string)
      requires Valid()
      modifies this
      ensures Valid()
      ensures sessions == old(sessions) - {id}
      ensures id !in old(sessions) ==> closed == old(closed)
      ensures id in old(sessions) ==>
        closed == old(closed) + Closes(old(sessions[id].analysis))
      ensures figures == old(figures) && Leaked() == old(Leaked())
    {
      if id in sessions {
        RemoveRecordValid(root, sessions, figures, closed, id);
        closed := closed + Closes(sessions[id].analysis);
        sessions := sessions - {id};
      }
    }

    /**
     * The state part of predict as written: store the batch and the type,
     * and, when there is a first signal, cache a figure of it over the
     * previous one, which is not closed. The selection is kept.
     */
    method StoreBatch(id: string, results: seq<Signal>, t: EcgType) returns (f: Option<Figure>)
      requires Valid() && id in sessions
      modifies this
      ensures Valid()
      ensures f.Some? <==> |results| > 0
      ensures f.Some? ==> fresh(f.value) && f.value.data == results[0]
      ensures sessions == old(sessions)[id := old(sessions[id]).(
        results := results, ecgType := Some(t), analysis := if f.Some? then f else old(sessions[id].analysis))]
      ensures closed == old(closed) && figures == old(figures) + Held(f)
      ensures Leaked() == old(Leaked()) + (if f.Some? then Held(old(sessions[id].analysis)) else {})
    {
      var s := sessions[id].(results := results, ecgType := Some(t));
      if |results| == 0 {
        KeepRecordValid(root, sessions, figures, closed, id, s);
        sessions := sessions[id := s];
        return None;
      }
      var figure := PlotAnalysis(results[0]);
      f := Some(figure);
      OverwriteRecordValid(root, sessions, figures, closed, id, s.(analysis := f));
      sessions := sessions[id := s.(analysis := f)];
      figures := figures + Held(f);
    }

    /**
     * predict: resolve the type, build the gallery from the generator's
     * batch, then store the batch and the type and cache a figure of the
     * first signal. app.py stores the batch first and loops over the stored
     * Results. The loop changes no record, and rendering is taken not to
     * raise, so looping over the batch before storing it builds the same
     * gallery; the figure still comes after the loop. As in app.py, the
     * selection is kept and the previous figure is overwritten without being
     * closed. A failing generator changes nothing; an empty batch is stored
     * before Results[0] fails.
     */
    method Predict(id: string, numberOfEcgs: nat, ecgTypeString: string,
                   generated: Result<seq<Signal>, string>)
      returns (warned: bool, r: Result<Prediction, PredictError>)
      requires Valid() && id in sessions
      requires generated.Ok? ==> |generated.value| == numberOfEcgs
      modifies this
      ensures Valid()
      ensures warned <==> ecgTypeString != "ECG-8" && ecgTypeString != "ECG-12"
      ensures generated.Err? ==>
        r == Err(GeneratorFailed(generated.error)) && sessions == old(sessions)
      ensures generated.Ok? && numberOfEcgs == 0 ==>
        && r == Err(NoResults)
        && sessions == old(sessions)[id := old(sessions[id]).(
             results := [], ecgType := Some(ResolveEcgType(ecgTypeString).0))]
      ensures generated.Ok? && numberOfEcgs > 0 ==>
        && r.Ok? && fresh(r.value.analysis) && r.value.analysis.data == generated.value[0]
        && sessions == old(sessions)[id := old(sessions[id]).(
             results := generated.value, ecgType := Some(ResolveEcgType(ecgTypeString).0),
             analysis := Some(r.value.analysis))]
        && |r.value.gallery| == numberOfEcgs
        && (forall k :: 0 <= k < numberOfEcgs ==>
              r.value.gallery[k].image == WebP(generated.value[k], ResolveEcgType(ecgTypeString).0)
              && r.value.gallery[k].caption == Label(k + 1)
              && ParseLabel(r.value.gallery[k].caption) == Some(k + 1))
      ensures closed == old(closed)
      ensures r.Ok? ==> figures == old(figures) + {r.value.analysis}
      ensures r.Err? ==> figures == old(figures)
      ensures Leaked() == old(Leaked()) + (if r.Ok? then Held(old(sessions[id].analysis)) else {})
    {
      var resolved := ResolveEcgType(ecgTypeString);
      var ecgType := resolved.0;
      warned := resolved.1;
      if generated.Err? {
        return warned, Err(GeneratorFailed(generated.error));
      }
      var plotList := BuildGallery(generated.value, ecgType);
      var f := StoreBatch(id, generated.value, ecgType);
      if f.None? {
        return warned, Err(NoResults);
      }
      r := Ok(Prediction(plotList, f.value));
    }

    /**
     * The state part of the corrected predict: close the previous figure,
     * as analyze and cleanUpSession do before they drop one, store the
     * batch and the type, reset the selection to 0, so that it names the
     * signal whose figure is cached, and cache a figure of the first signal
     * if there is one.
     */
    method ResetBatch(id: string, results: seq<Signal>, t: EcgType) returns (f: Option<Figure>)
      requires Valid() && id in sessions
      modifies this
      ensures Valid()
      ensures f.Some? <==> |results| > 0
      ensures f.Some? ==> fresh(f.value) && f.value.data == results[0]
      ensures sessions == old(sessions)[id := old(sessions[id]).(
        selected := 0, results := results, ecgType := Some(t), analysis := f)]
      ensures sessions[id].Coherent()
      ensures closed == old(closed) + Closes(old(sessions[id].analysis)) && figures == old(figures) + Held(f)
      ensures Leaked() == old(Leaked())
    {
      var s := sessions[id].(selected := 0, results := results, ecgType := Some(t));
      f := None;
      if |results| > 0 {
        var figure := PlotAnalysis(results[0]);
        f := Some(figure);
      }
      ReplaceRecordValid(root, sessions, figures, closed, id, s.(analysis := f));
      closed := closed + Closes(sessions[id].analysis);
      sessions := sessions[id := s.(analysis := f)];
      figures := figures + Held(f);
    }

    /**
     * predict, corrected: the same steps, but the selection is reset to 0
     * and the previous figure is closed before it is replaced. The analysis
     * panel then shows Results[0], and the cached figure and the exports
     * refer to that same, selected signal.
     */
    method PredictCorrected(id: string, numberOfEcgs: nat, ecgTypeString: string,
                              generated: Result<seq<Signal>, string>)
      returns (warned: bool, r: Result<Prediction, PredictError>)
      requires Valid() && id in sessions
      requires generated.Ok? ==> |generated.value| == numberOfEcgs
      modifies this
      ensures Valid()
      ensures warned <==> ecgTypeString != "ECG-8" && ecgTypeString != "ECG-12"
      ensures generated.Err? ==>
        && r == Err(GeneratorFailed(generated.error)) && sessions == old(sessions)
        && closed == old(closed) && figures == old(figures)
      ensures generated.Ok? ==>
        && id in sessions && sessions[id].Coherent()
        && closed == old(closed) + Closes(old(sessions[id].analysis))
      ensures generated.Ok? && numberOfEcgs == 0 ==>
        && r == Err(NoResults) && figures == old(figures)
        && sessions == old(sessions)[id := old(sessions[id]).(
             selected := 0, results := [], ecgType := Some(ResolveEcgType(ecgTypeString).0),
             analysis := None)]
      ensures generated.Ok? && numberOfEcgs > 0 ==>
        && r.Ok? && fresh(r.value.analysis) && r.value.analysis.data == generated.value[0]
        && figures == old(figures) + {r.value.analysis}
        && sessions == old(sessions)[id := old(sessions[id]).(
             selected := 0, results := generated.value, ecgType := Some(ResolveEcgType(ecgTypeString).0),
             analysis := Some(r.value.analysis))]
        && |r.value.gallery| == numberOfEcgs
        && (forall k :: 0 <= k < numberOfEcgs ==>
              r.value.gallery[k].image == WebP(generated.value[k], ResolveEcgType(ecgTypeString).0)
              && r.value.gallery[k].caption == Label(k + 1)
              && ParseLabel(r.value.gallery[k].caption) == Some(k + 1))
      ensures Leaked() == old(Leaked())
    {
      var resolved := ResolveEcgType(ecgTypeString);
      var ecgType := resolved.0;
      warned := resolved.1;
      if generated.Err? {
        return warned, Err(GeneratorFailed(generated.error));
      }
      var plotList := BuildGallery(generated.value, ecgType);
      var f := ResetBatch(id, generated.value, ecgType);
      if f.None? {
        return warned, Err(NoResults);
      }
      r := Ok(Prediction(plotList, f.value));
    }

    /**
     * analyze: select signal `index`, close the previous figure and cache a
     * figure of the selected signal. The selection is stored first, so an
     * index past the batch (Results[Selected] raising IndexError) leaves it
     * set and changes nothing else.
     */
    method Analyze(id: string, index: nat) returns (r: Option<Figure>)
      requires Valid() && id in sessions
      modifies this
      ensures Valid()
      ensures r.Some? <==> index < |old(sessions[id].results)|
      ensures r.None? ==>
        && sessions == old(sessions)[id := old(sessions[id]).(selected := index)]
        && closed == old(closed) && figures == old(figures)
      ensures r.Some? ==>
        && fresh(r.value) && r.value.data == old(sessions[id].results[index])
        && sessions == old(sessions)[id := old(sessions[id]).(selected := index, analysis := r)]
        && sessions[id].Coherent()
        && closed == old(closed) + Closes(old(sessions[id].analysis))
        && figures == old(figures) + {r.value}
      ensures Leaked() == old(Leaked())
    {
      var s := sessions[id].(selected := index);
      if s.selected >= |s.results| {
        KeepRecordValid(root, sessions, figures, closed, id, s);
        sessions := sessions[id := s];
        return None;
      }
      var f := PlotAnalysis(s.results[s.selected]);
      r := Some(f);
      ReplaceRecordValid(root, sessions, figures, closed, id, s.(analysis := r));
      closed := closed + Closes(sessions[id].analysis);
      sessions := sessions[id := s.(analysis := r)];
      figures := figures + Held(r);
    }

    /**
     * download: the file for the selected signal of `id` in its directory,
     * "ECG-<selected + 1>" with the format's extension, and for a PDF the
     * lead list of the stored type; nothing for a format that is not
     * exported. An unknown session (KeyError) or a selection past the batch
     * (IndexError) is an error.
     */
    function Download(id: string, format: OutputFormat): (r: Result<Option<Export>, DownloadError>)
      reads this
      requires Valid()
      ensures format == OutputTensor <==> r == Ok(None)
      ensures r == Err(UnknownSession) <==> format != OutputTensor && id !in sessions
      ensures r == Err(NoSuchSignal) <==>
        format != OutputTensor && id in sessions && sessions[id].selected >= |sessions[id].results|
      ensures r.Ok? && r.value.Some? ==>
        var s := sessions[id];
        var e := r.value.value;
        && e.signal == s.results[s.selected] && e.ecgType == s.ecgType
        && (e.CsvExport? <==> format == OutputCsv)
        && e.path == ExportPath(s.tempDirectory, s.selected, Extension(format))
        && ParseExportPath(e.path) == Some((s.tempDirectory, s.selected, Extension(format)))
        && IsUnder(e.path, s.tempDirectory) && IsUnder(e.path, root)
      ensures r.Ok? && r.value.Some? && r.value.value.PdfExport? ==>
        var s := sessions[id];
        var e := r.value.value;
        && e.format == format && e.ecgNumber == s.selected + 1
        && e.leads == OutputLeads(s.ecgType)
        && |e.leads| == (if s.ecgType == Some(Ecg12) then 12 else 8)
    {
      if format == OutputTensor then Ok(None)
      else if id !in sessions then Err(UnknownSession)
      else
        var s := sessions[id];
        if s.selected >= |s.results| then Err(NoSuchSignal)
        else
          var path := ExportPath(s.tempDirectory, s.selected, Extension(format));
          ExportPathRoundTrip(s.tempDirectory, s.selected, Extension(format));
          ExportPathIsUnder(s.tempDirectory, s.selected, Extension(format));
          IsUnderTransitive(path, s.tempDirectory, root);
          if format == OutputCsv then
            Ok(Some(CsvExport(path, s.results[s.selected], s.ecgType)))
          else
            Ok(Some(PdfExport(path, s.results[s.selected], s.ecgType, OutputLeads(s.ecgType),
                              format, s.selected + 1)))
    }

    /** downloadCSV: the CSV export of the selected signal. */
    function DownloadCsv(id: string): (r: Result<Option<Export>, DownloadError>)
      reads this
      requires Valid()
      ensures r.Ok? <==> id in sessions && sessions[id].selected < |sessions[id].results|
      ensures r.Ok? ==>
        && r.value.Some? && r.value.value.CsvExport?
        && r.value.value.path == ExportPath(sessions[id].tempDirectory, sessions[id].selected, CsvExtension)
        && ParseExportPath(r.value.value.path) == Some((sessions[id].tempDirectory, sessions[id].selected, CsvExtension))
    {
      Download(id, OutputCsv)
    }

    /** downloadPDF: the PDF export of the selected signal. */
    function DownloadPdf(id: string): (r: Result<Option<Export>, DownloadError>)
      reads this
      requires Valid()
      ensures r.Ok? <==> id in sessions && sessions[id].selected < |sessions[id].results|
      ensures r.Ok? ==>
        && r.value.Some? && r.value.value.PdfExport? && r.value.value.format == OutputPdf
        && r.value.value.path == ExportPath(sessions[id].tempDirectory, sessions[id].selected, PdfExtension)
        && ParseExportPath(r.value.value.path) == Some((sessions[id].tempDirectory, sessions[id].selected, PdfExtension))
    {
      Download(id, OutputPdf)
    }

    /** downloadPDFwithAnalysis: the PDF export with analysis of the selected signal. */
    function DownloadPdfWithAnalysis(id: string): (r: Result<Option<Export>, DownloadError>)
      reads this
      requires Valid()
      ensures r.Ok? <==> id in sessions && sessions[id].selected < |sessions[id].results|
      ensures r.Ok? ==>
        && r.value.Some? && r.value.value.PdfExport? && r.value.value.format == OutputPdfAnalysis
        && r.value.value.path == ExportPath(sessions[id].tempDirectory, sessions[id].selected, PdfExtension)
        && ParseExportPath(r.value.value.path) == Some((sessions[id].tempDirectory, sessions[id].selected, PdfExtension))
    {
      Download(id, OutputPdfAnalysis)
    }

    /** Both PDF kinds write the same file, and the CSV file is a different one. */
    lemma PdfKindsShareFile(id: string)
      requires Valid() && id in sessions && sessions[id].selected < |sessions[id].results|
      ensures DownloadPdf(id).value.value.path == DownloadPdfWithAnalysis(id).value.value.path
      ensures DownloadCsv(id).value.value.path != DownloadPdf(id).value.value.path
    {
    }

    /** Two sessions never write to the same file. */
    lemma ExportsIsolated(a: string, b: string, fa: OutputFormat, fb: OutputFormat)
      requires Valid() && a != b
      requires Download(a, fa).Ok? && Download(a, fa).value.Some?
      requires Download(b, fb).Ok? && Download(b, fb).value.Some?
      ensures Download(a, fa).value.value.path != Download(b, fb).value.value.path
    {
    }
  }

  // ---------------------------------------------------------------------
  // A session's life with predict as written and as corrected
  // ---------------------------------------------------------------------

  /** A tab opens, generates four signals and selects the fourth. */
  method FourthSelected(root: string, directory: string, ecgTypeString: string, first: seq<Signal>)
    returns (store: SessionStore, ghost shown: Figure)
    requires IsUnder(directory, root) && |first| == 4
    ensures fresh(store) && store.Valid() && store.root == root && store.Leaked() == {}
    ensures "tab" in store.sessions && store.sessions["tab"].tempDirectory == directory
    ensures store.sessions["tab"].selected == 3 && |store.sessions["tab"].results| == 4
    ensures store.sessions["tab"].analysis == Some(shown) && shown.data == first[3]
  {
    store := new SessionStore(root);
    store.InitializeSession("tab", directory);
    var _, _ := store.Predict("tab", 4, ecgTypeString, Ok(first));
    var analysis := store.Analyze("tab", 3);
    shown := analysis.value;
  }

  /**
   * After four signals with the fourth selected, predict one signal: predict
   * keeps the selection, so the CSV download then indexes past the batch,
   * and the figure of the fourth signal is neither cached nor closed.
   */
  method StaleSelection(root: string, directory: string, ecgTypeString: string, first: seq<Signal>, next: Signal)
    returns (download: Result<Option<Export>, DownloadError>, ghost leaked: set<Figure>, ghost shown: Figure)
    requires IsUnder(directory, root) && |first| == 4
    ensures download == Err(NoSuchSignal)
    ensures shown.data == first[3] && shown in leaked
  {
    var store;
    store, shown := FourthSelected(root, directory, ecgTypeString, first);
    var _, _ := store.Predict("tab", 1, ecgTypeString, Ok([next]));
    leaked := store.Leaked();
    download := store.DownloadCsv("tab");
  }

  /**
   * The same steps with the corrected predict: the selection is reset to the
   * first signal, the download exports the new signal, and no figure is
   * leaked.
   */
  method FreshSelection(root: string, directory: string, ecgTypeString: string, first: seq<Signal>, next: Signal)
    returns (download: Result<Option<Export>, DownloadError>, ghost leaked: set<Figure>)
    requires IsUnder(directory, root) && |first| == 4
    ensures download.Ok? && download.value.Some? && download.value.value.signal == next
    ensures download.value.value.path == ExportPath(directory, 0, CsvExtension)
    ensures leaked == {}
  {
    var store, _ := FourthSelected(root, directory, ecgTypeString, first);
    var _, _ := store.PredictCorrected("tab", 1, ecgTypeString, Ok([next]));
    leaked := store.Leaked();
    download := store.DownloadCsv("tab");
  }

  /** A tab opens, generates four 8-lead signals and selects the third. */
  method ThirdOfFourSelected(root: string, directory: string, signals: seq<Signal>) returns (store: SessionStore)
    requires IsUnder(directory, root) && |signals| == 4
    ensures fresh(store) && store.Valid() && store.root == root
    ensures "A" in store.sessions && store.sessions["A"].tempDirectory == directory
    ensures store.sessions["A"].selected == 2 && store.sessions["A"].results == signals
    ensures store.sessions["A"].ecgType == Some(Ecg8)
  {
    store := new SessionStore(root);
    store.InitializeSession("A", directory);
    var _, _ := store.Predict("A", 4, "ECG-8", Ok(signals));
    var _ := store.Analyze("A", 2);
  }

  /** The PDF of the third signal is named ECG-3.pdf. */
  lemma ThirdPdfName(directory: string)
    ensures ExportPath(directory, 2, PdfExtension) == directory + "/ECG-3.pdf"
  {
    assert NatToString(3) == "3";
  }

  /**
   * A tab opens, generates four 8-lead signals, selects the third and
   * exports it as a PDF with analysis, then closes: the export is ECG-3.pdf
   * in the tab's directory, and afterwards the tab is unknown.
   */
  method ExportThenClose(root: string, directory: string, signals: seq<Signal>)
    returns (path: string, ecgType: Option<EcgType>, afterClose: Result<Option<Export>, DownloadError>)
    requires IsUnder(directory, root) && |signals| == 4
    ensures ecgType == Some(Ecg8)
    ensures path == directory + "/ECG-3.pdf"
    ensures afterClose == Err(UnknownSession)
  {
    var store := ThirdOfFourSelected(root, directory, signals);
    ecgType := store.sessions["A"].ecgType;
    var document := store.DownloadPdfWithAnalysis("A");
    path := document.value.value.path;
    ExportPathRoundTrip(directory, 2, PdfExtension);
    ThirdPdfName(directory);
    store.CleanUpSession("A");
    afterClose := store.DownloadCsv("A");
  }
}
