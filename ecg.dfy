/**
 * The pure parts of the ECG generator front end (app.py): resolving the
 * ECG-type choice, the plot layouts used for the gallery, the gallery labels,
 * the lead list of the PDF export, and the names of exported files.
 */
module Ecg {
  import opened Options
  import opened Decimal

  /** One generated ECG as the generator returns it (a tensor); its samples are not modelled. */
  type Signal

  /** deepfakeecg.DATA_ECG8 and deepfakeecg.DATA_ECG12. */
  datatype EcgType = Ecg8 | Ecg12

  /** deepfakeecg.OUTPUT_TENSOR, OUTPUT_CSV, OUTPUT_PDF and OUTPUT_PDF_ANALYSIS. */
  datatype OutputFormat = OutputTensor | OutputCsv | OutputPdf | OutputPdfAnalysis

  function LeadCount(t: EcgType): nat {
    if t == Ecg12 then 12 else 8
  }

  // ---------------------------------------------------------------------
  // ECG-type resolution (the first step of predict)
  // ---------------------------------------------------------------------

  /**
   * The generator type for the user's choice, and whether a warning is
   * written: "ECG-8" and "ECG-12" are recognised, every other string falls
   * back to 12 leads with a warning instead of failing.
   */
  function ResolveEcgType(ecgTypeString: string): (r: (EcgType, bool))
    ensures r.0 == Ecg8 <==> ecgTypeString == "ECG-8"
    ensures r.0 == Ecg12 <==> ecgTypeString != "ECG-8"
    ensures r.1 <==> ecgTypeString != "ECG-8" && ecgTypeString != "ECG-12"
  {
    if ecgTypeString == "ECG-8" then (Ecg8, false)
    else if ecgTypeString == "ECG-12" then (Ecg12, false)
    else (Ecg12, true)
  }

  // ---------------------------------------------------------------------
  // Gallery rendering
  // ---------------------------------------------------------------------

  const PlotInfo: string := "25 mm/sec, 1 mV/10 mm"

  /** The arguments predict passes to ecg_plot.plot: title, lead names of the data rows, display order. */
  datatype PlotLayout = PlotLayout(title: string, leadIndex: seq<string>, leadOrder: seq<nat>)

  /** `order` lists indices of its own length only and covers every one of them, so each exactly once. */
  predicate IsIndexPermutation(order: seq<nat>) {
    && (forall i :: 0 <= i < |order| ==> order[i] < |order|)
    && (forall k :: 0 <= k < |order| ==> k in order)
  }

  /** The layout for a batch of the given type: one name per lead, and an order that shows every lead once. */
  function PlotLayoutFor(t: EcgType): (p: PlotLayout)
    ensures |p.leadIndex| == |p.leadOrder| == LeadCount(t)
    ensures IsIndexPermutation(p.leadOrder)
  {
    match t
    case Ecg12 =>
      PlotLayout("ECG-12 \U{2013} " + PlotInfo,
                 ["I", "II", "V1", "V2", "V3", "V4", "V5", "V6", "III", "aVR", "aVL", "aVF"],
                 [0, 1, 8, 9, 10, 11, 2, 3, 4, 5, 6, 7])
    case Ecg8 =>
      PlotLayout("ECG-8 \U{2013} " + PlotInfo,
                 ["I", "II", "V1", "V2", "V3", "V4", "V5", "V6"],
                 [0, 1, 2, 3, 4, 5, 6, 7])
  }

  /** The lead names in the order the plot shows them. */
  function DisplayedLeads(p: PlotLayout): (leads: seq<string>)
    requires |p.leadIndex| == |p.leadOrder| && IsIndexPermutation(p.leadOrder)
    ensures |leads| == |p.leadOrder|
    ensures forall i :: 0 <= i < |leads| ==> leads[i] == p.leadIndex[p.leadOrder[i]]
  {
    seq(|p.leadOrder|, i requires 0 <= i < |p.leadOrder| => p.leadIndex[p.leadOrder[i]])
  }

  /**
   * A gallery image: the WebP rendering of one signal, drawn with the layout
   * PlotLayoutFor(ecgType) (the pixels are not modelled).
   */
  datatype Image = WebP(signal: Signal, ecgType: EcgType)

  /** One entry of the gallery: an image and its caption. */
  datatype GalleryItem = GalleryItem(image: Image, caption: string)

  /** The caption of the gallery entry with 1-based number k. */
  function Label(k: nat): (caption: string)
    ensures |caption| > 11 && caption[..11] == "ECG Number "
    ensures AllDigits(caption[11..]) && (k > 0 ==> caption[11] != '0')
  {
    var digits := NatToString(k);
    assert ("ECG Number " + digits)[11..] == digits;
    "ECG Number " + digits
  }

  /** Reads back the number of a gallery caption. */
  function ParseLabel(caption: string): (r: Option<nat>)
  {
    if |caption| > 11 && caption[..11] == "ECG Number " && AllDigits(caption[11..])
    then Some(ParseDecimal(caption[11..]))
    else None
  }

  lemma LabelRoundTrip(k: nat)
    ensures ParseLabel(Label(k)) == Some(k)
  {
    var l := Label(k);
    assert l[..11] == "ECG Number ";
    assert l[11..] == NatToString(k);
    ParseNatToString(k);
  }

  /** No two gallery entries share a caption. */
  lemma LabelsDistinct(j: nat, k: nat)
    requires j != k
    ensures Label(j) != Label(k)
  {
    LabelRoundTrip(j);
    LabelRoundTrip(k);
  }

  // ---------------------------------------------------------------------
  // PDF export lead list
  // ---------------------------------------------------------------------

  /** The leads written to a PDF: twelve for a 12-lead batch, eight otherwise (also when no type is set). */
  function OutputLeads(t: Option<EcgType>): (leads: seq<string>)
    ensures |leads| == if t == Some(Ecg12) then 12 else 8
    ensures forall i, j :: 0 <= i < j < |leads| ==> leads[i] != leads[j]
  {
    if t == Some(Ecg12) then ["I", "II", "III", "aVL", "aVR", "aVF", "V1", "V2", "V3", "V4", "V5", "V6"]
    else ["I", "II", "V1", "V2", "V3", "V4", "V5", "V6"]
  }

  /** For 8 leads the PDF holds the leads the gallery shows, in the same order. */
  lemma OutputLeadsMatchPlot8()
    ensures OutputLeads(Some(Ecg8)) == DisplayedLeads(PlotLayoutFor(Ecg8))
  {
    var p := PlotLayoutFor(Ecg8);
    var shown := DisplayedLeads(p);
    var expected := ["I", "II", "V1", "V2", "V3", "V4", "V5", "V6"];
    forall i | 0 <= i < 8
      ensures shown[i] == expected[i]
    {
      assert shown[i] == p.leadIndex[p.leadOrder[i]];
    }
    assert shown == expected;
  }

  /** For 12 leads the PDF holds the leads the gallery shows, with aVL and aVR swapped. */
  lemma OutputLeadsMatchPlot12()
    ensures var shown := DisplayedLeads(PlotLayoutFor(Ecg12));
      OutputLeads(Some(Ecg12)) == shown[..3] + [shown[4], shown[3]] + shown[5..]
  {
    var p := PlotLayoutFor(Ecg12);
    var shown := DisplayedLeads(p);
    var expected := ["I", "II", "III", "aVR", "aVL", "aVF", "V1", "V2", "V3", "V4", "V5", "V6"];
    forall i | 0 <= i < 12
      ensures shown[i] == expected[i]
    {
      assert shown[i] == p.leadIndex[p.leadOrder[i]];
    }
    assert shown == expected;
  }

  // ---------------------------------------------------------------------
  // Export file names
  // ---------------------------------------------------------------------

  const CsvExtension: string := ".csv"
  const PdfExtension: string := ".pdf"

  /** The file extension of an export format; the two PDF kinds share one. */
  function Extension(format: OutputFormat): (ext: string)
    requires format != OutputTensor
    ensures ext == CsvExtension <==> format == OutputCsv
    ensures ext == PdfExtension <==> format != OutputCsv
  {
    if format == OutputCsv then CsvExtension else PdfExtension
  }

  /** `pathlib.Path(directory) / ('ECG-' + str(selected + 1) + ext)`. */
  function ExportPath(directory: string, selected: nat, ext: string): (path: string)
    ensures |path| > |directory| + 5 + |ext|
    ensures path[..|directory| + 5] == directory + "/ECG-" && path[|path| - |ext|..] == ext
    ensures var number := path[|directory| + 5..|path| - |ext|];
      AllDigits(number) && number[0] != '0'
  {
    var digits := NatToString(selected + 1);
    var path := directory + "/" + "ECG-" + digits + ext;
    assert path == (directory + "/ECG-") + digits + ext;
    assert path[|directory| + 5..|path| - |ext|] == digits;
    path
  }

  /** `path` names an entry inside `directory` (at any depth). */
  predicate IsUnder(path: string, directory: string) {
    |path| > |directory| + 1 && path[..|directory| + 1] == directory + "/"
  }

  lemma IsUnderTransitive(path: string, directory: string, root: string)
    requires IsUnder(path, directory) && IsUnder(directory, root)
    ensures IsUnder(path, root)
  {
    assert path[..|root| + 1] == path[..|directory| + 1][..|root| + 1];
  }

  /** The position of the last '/' in s, if any. */
  function LastSlash(s: string): (r: Option<nat>)
    ensures r.Some? ==> r.value < |s| && s[r.value] == '/' && '/' !in s[r.value + 1..]
    ensures r.None? ==> '/' !in s
    decreases |s|
  {
    if s == [] then None
    else if s[|s| - 1] == '/' then Some(|s| - 1)
    else
      var r := LastSlash(s[..|s| - 1]);
      assert s == s[..|s| - 1] + [s[|s| - 1]];
      r
  }

  /** Reads back the 0-based selection from a file name "ECG-<n>" with n >= 1. */
  function ParseExportName(name: string): (r: Option<nat>)
  {
    if |name| < 5 || name[..4] != "ECG-" || !AllDigits(name[4..]) then None
    else
      var number := ParseDecimal(name[4..]);
      if number == 0 then None else Some(number - 1)
  }

  /**
   * Splits an export path back into its directory, 0-based selection and
   * extension; None for any string that is not such a path.
   */
  function ParseExportPath(path: string): (r: Option<(string, nat, string)>)
  {
    if |path| < 4 then None
    else
      var ext := path[|path| - 4..];
      var stem := path[..|path| - 4];
      if ext != CsvExtension && ext != PdfExtension then None
      else match LastSlash(stem)
        case None => None
        case Some(k) =>
          match ParseExportName(stem[k + 1..])
          case None => None
          case Some(selected) => Some((stem[..k], selected, ext))
  }

  lemma LastSlashOfChild(directory: string, name: string)
    requires '/' !in name
    ensures LastSlash(directory + "/" + name) == Some(|directory|)
  {
    var s := directory + "/" + name;
    assert s[|directory|] == '/';
    assert s[|directory| + 1..] == name;
  }

  lemma ExportNameRoundTrip(selected: nat)
    ensures ParseExportName("ECG-" + NatToString(selected + 1)) == Some(selected)
  {
    var digits := NatToString(selected + 1);
    var name := "ECG-" + digits;
    assert name[..4] == "ECG-" && name[4..] == digits;
    ParseNatToString(selected + 1);
  }

  lemma ParseChildPath(directory: string, name: string, ext: string)
    requires '/' !in name
    requires ext == CsvExtension || ext == PdfExtension
    ensures ParseExportPath(directory + "/" + name + ext) ==
      match ParseExportName(name)
      case None => None
      case Some(selected) => Some((directory, selected, ext))
  {
    var path := directory + "/" + name + ext;
    var stem := directory + "/" + name;
    assert path[|path| - 4..] == ext;
    assert path[..|path| - 4] == stem;
    LastSlashOfChild(directory, name);
    assert stem[|directory| + 1..] == name;
    assert stem[..|directory|] == directory;
  }

  /** Every export path parses back to the directory, selection and extension it was built from. */
  lemma ExportPathRoundTrip(directory: string, selected: nat, ext: string)
    requires ext == CsvExtension || ext == PdfExtension
    ensures ParseExportPath(ExportPath(directory, selected, ext)) == Some((directory, selected, ext))
  {
    var digits := NatToString(selected + 1);
    var name := "ECG-" + digits;
    assert ExportPath(directory, selected, ext) == directory + "/" + name + ext;
    assert '/' !in name by {
      forall i | 0 <= i < |name| ensures name[i] != '/' {
        if i >= 4 { assert name[i] == digits[i - 4]; }
      }
    }
    ExportNameRoundTrip(selected);
    ParseChildPath(directory, name, ext);
  }

  /** Two exports share a path only if they share directory, selection and extension. */
  lemma ExportPathInjective(d1: string, i1: nat, e1: string, d2: string, i2: nat, e2: string)
    requires e1 == CsvExtension || e1 == PdfExtension
    requires e2 == CsvExtension || e2 == PdfExtension
    requires ExportPath(d1, i1, e1) == ExportPath(d2, i2, e2)
    ensures d1 == d2 && i1 == i2 && e1 == e2
  {
    ExportPathRoundTrip(d1, i1, e1);
    ExportPathRoundTrip(d2, i2, e2);
  }

  /** An export is written inside the directory it is named under. */
  lemma ExportPathIsUnder(directory: string, selected: nat, ext: string)
    ensures IsUnder(ExportPath(directory, selected, ext), directory)
  {
    var path := ExportPath(directory, selected, ext);
    assert path == (directory + "/") + ("ECG-" + NatToString(selected + 1) + ext);
  }
}
