/** The QR scanner: lookup of a scanned code in the certificate table and the five-entry scan history. */
module QrScanner {
  import opened Quality

  /** A certificate record of the scanner's product table. */
  datatype Entry = Entry(
    id: string,
    name: string,
    farmer: string,
    productType: string,
    quantity: string,
    location: string,
    verifiedDate: string,
    quality: string,
    price: string,
    description: string,
    qaAgency: string,
    certificateNumber: string,
    expiryDate: string)

  /** What the result panel shows: nothing yet, a certificate, or the error object of a miss. */
  datatype ScanResult = NoResult | Found(entry: Entry) | NotFound(error: string)

  datatype State = State(scannedCode: string, scanResult: ScanResult, isScanning: bool, history: seq<Entry>)

  const NotInDatabase := "Product not found in database"
  const HistoryLimit := 5

  const Authority := "Indian Agricultural Quality Authority"

  const RiceCode := "AGRIQCERT-001-EXCELLENT-2024"
  const PepperCode := "AGRIQCERT-002-EXCELLENT-2024"
  const WheatCode := "AGRIQCERT-003-GOOD-2024"

  /** The built-in product table, keyed by certificate code. */
  const ProductDatabase: map<string, Entry> := map[
    RiceCode := Entry(RiceCode, "Premium Basmati Rice", "Rajesh Kumar", "Rice", "1000 kg", "Punjab, India",
                      "2024-01-15", Excellent, "$2.50/kg",
                      "High-quality basmati rice with excellent aroma and texture.",
                      Authority, "IAQA-2024-001", "2025-01-15"),
    PepperCode := Entry(PepperCode, "Black Pepper", "Suresh Menon", "Spices", "200 kg", "Kerala, India",
                        "2024-01-08", Excellent, "$8.50/kg",
                        "Premium black pepper with high piperine content.",
                        Authority, "IAQA-2024-002", "2025-01-08"),
    WheatCode := Entry(WheatCode, "Organic Wheat", "Priya Sharma", "Wheat", "500 kg", "Haryana, India",
                       "2024-01-10", Good, "$1.80/kg",
                       "Certified organic wheat suitable for premium bread making.",
                       Authority, "IAQA-2024-003", "2025-01-10")]

  /** The code the simulated camera always reads. */
  const MockScannedCode := RiceCode

  /** Every table entry is filed under its own id, and every entry carries a graded quality. */
  lemma DatabaseWellFormed()
    ensures forall k :: k in ProductDatabase ==> ProductDatabase[k].id == k
    ensures forall k :: k in ProductDatabase ==> IsGrade(ProductDatabase[k].quality)
    ensures |ProductDatabase| == 3
  {
    assert ProductDatabase.Keys == {RiceCode, PepperCode, WheatCode};
  }

  /** The simulated camera always reads a code the table knows. */
  lemma MockCodeIsKnown()
    ensures MockScannedCode in ProductDatabase
    ensures ProductDatabase[MockScannedCode].quality == Excellent
  {
  }

  /** The first `n` elements of `xs`, or all of them when there are fewer. */
  function Take<T>(xs: seq<T>, n: nat): (r: seq<T>)
    ensures |r| <= n && |r| <= |xs|
    ensures r == xs[..|r|] && (|r| < n ==> r == xs)
  {
    if |xs| <= n then xs else xs[..n]
  }

  /** The scan button: the scanner starts and nothing else changes. */
  function StartScan(s: State): (r: State)
    ensures r.isScanning && r.(isScanning := s.isScanning) == s
  {
    s.(isScanning := true)
  }

  /**
   * The timer callback: records the code; on a hit shows the entry and puts it in front of the
   * first four earlier entries; on a miss shows the error and keeps the history. Scanning stops.
   */
  function FinishScan(s: State, code: string): (r: State)
    ensures r.scannedCode == code && !r.isScanning
    ensures code in ProductDatabase ==>
      && r.scanResult == Found(ProductDatabase[code])
      && |r.history| == (if |s.history| < HistoryLimit then |s.history| + 1 else HistoryLimit)
      && r.history[0] == ProductDatabase[code]
      && r.history[1..] == s.history[..|r.history| - 1]
    ensures code !in ProductDatabase ==> r.scanResult == NotFound(NotInDatabase) && r.history == s.history
  {
    var r := if code in ProductDatabase then
      var e := ProductDatabase[code];
      s.(scanResult := Found(e), history := [e] + Take(s.history, HistoryLimit - 1))
    else
      s.(scanResult := NotFound(NotInDatabase));
    r.(scannedCode := code, isScanning := false)
  }

  /** `handleScan` run to completion, with the code the camera read as a parameter. */
  function HandleScan(s: State, code: string): (r: State)
    ensures |s.history| <= HistoryLimit ==> |r.history| <= HistoryLimit
  {
    FinishScan(StartScan(s), code)
  }

  /** The entries a run of scans finds, most recent first. */
  function Hits(codes: seq<string>): (hits: seq<Entry>)
    ensures |hits| <= |codes|
    ensures forall e :: e in hits ==> e in ProductDatabase.Values
  {
    if codes == [] then []
    else
      var rest := Hits(codes[1..]);
      if codes[0] in ProductDatabase then rest + [ProductDatabase[codes[0]]] else rest
  }

  /** Scanning the codes one after another. */
  function ScanAll(s: State, codes: seq<string>): State
    decreases |codes|
  {
    if codes == [] then s else ScanAll(HandleScan(s, codes[0]), codes[1..])
  }

  /** Cutting a list short before a prefix of the same length changes nothing. */
  lemma TakeAfterPrepend<T>(a: seq<T>, b: seq<T>, n: nat)
    ensures Take(a + Take(b, n), n) == Take(a + b, n)
  {
    if |b| > n {
      assert (a + b)[..n] == (a + b[..n])[..n];
    }
  }

  /**
   * After any run of scans the history is the five most recent hits, followed by as much of the
   * earlier history as still fits; misses leave no trace.
   */
  lemma {:induction false} HistoryIsRecentHits(s: State, codes: seq<string>)
    requires |s.history| <= HistoryLimit
    ensures ScanAll(s, codes).history == Take(Hits(codes) + s.history, HistoryLimit)
    decreases |codes|
  {
    if codes == [] {
      assert Hits(codes) + s.history == s.history;
    } else {
      var s1 := HandleScan(s, codes[0]);
      HistoryIsRecentHits(s1, codes[1..]);
      var rest := Hits(codes[1..]);
      if codes[0] in ProductDatabase {
        var e := ProductDatabase[codes[0]];
        assert s1.history == [e] + Take(s.history, HistoryLimit - 1);
        assert s1.history == Take([e] + s.history, HistoryLimit);
        TakeAfterPrepend(rest, [e] + s.history, HistoryLimit);
        assert rest + ([e] + s.history) == (rest + [e]) + s.history;
      } else {
        assert s1.history == s.history;
      }
    }
  }
}
