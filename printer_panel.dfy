/**
 * The printer panel (`src/components/PrinterPanel.tsx`): scans for WiFi
 * printers, selects the first online one, and prints a sample inventory
 * label or maintenance ticket on the selected printer. The asynchronous
 * handlers are split at their `await`: a begin step that sets the busy
 * flags and a completion step that takes what the awaited call produced.
 */
module PrinterPanel {
  import opened JsStrings
  import opened WifiPrinter

  const LabelPrinted: string := "Label inventaris berhasil dicetak! 🏷️"
  const TicketPrinted: string := "Ticket maintenance berhasil dicetak! 🎫"

  /** The item `handlePrintLabel` prints. */
  const SampleItem: InventoryItem := InventoryItem("INV-2025-001", "Projector Epson EB-X51", "R. Meeting Lt.2", "Baik")

  /**
   * The ticket `handlePrintTicket` prints, numbered from the last six digits
   * of `Date.now()`: the number after `TKT-` is `now` modulo a million.
   */
  function SampleTicket(now: nat): (t: Ticket)
    ensures StartsWith(t.id, "TKT-") && 5 <= |t.id| <= 10
    ensures forall i :: 4 <= i < |t.id| ==> IsDigit(t.id[i])
    ensures AllDigits(t.id[4..]) && ParseDecimal(t.id[4..]) == now % 1000000
  {
    DecimalSuffixValue(now, 6);
    SuffixDigits(Decimal(now), 6);
    assert ("TKT-" + Suffix(Decimal(now), 6))[4..] == Suffix(Decimal(now), 6);
    Ticket("TKT-" + Suffix(Decimal(now), 6), Medium, "AC tidak dingin, perlu pengecekan", "Ruang Guru Lt.1", "Pak Ahmad")
  }

  /** `printers.find(p => p.status === 'online')`. */
  function FindOnline(printers: seq<PrinterDevice>): (r: Option<PrinterDevice>)
    ensures r.Some? ==> exists i :: 0 <= i < |printers| && printers[i] == r.value && r.value.status == Online &&
                                    forall j :: 0 <= j < i ==> printers[j].status != Online
    ensures r.None? <==> forall i :: 0 <= i < |printers| ==> printers[i].status != Online
  {
    if printers == [] then None
    else if printers[0].status == Online then Some(printers[0])
    else
      var r := FindOnline(printers[1..]);
      assert forall i :: 1 <= i < |printers| ==> printers[i] == printers[1..][i - 1];
      if r.Some? then
        var k :| 0 <= k < |printers[1..]| && printers[1..][k] == r.value && r.value.status == Online &&
                 forall j :: 0 <= j < k ==> printers[1..][j].status != Online;
        assert printers[k + 1] == r.value;
        r
      else r
  }

  /** On the mock discovery list the scan selects printer-001, the first entry. */
  lemma DiscoverySelectsFirstPrinter()
    ensures FindOnline(DiscoveredPrinters) == Some(DiscoveredPrinters[0])
    ensures DiscoveredPrinters[0].id == "printer-001"
  {
  }

  /** A call to `printToNetworkPrinter` the panel makes. */
  datatype PrintJob = PrintJob(printerId: string, content: string)

  class Panel {
    var printers: seq<PrinterDevice>
    var selectedPrinter: Option<PrinterDevice>
    var isScanning: bool
    var isPrinting: bool
    var printSuccess: Option<string>

    constructor ()
      ensures printers == [] && selectedPrinter.None? && !isScanning && !isPrinting && printSuccess.None?
    {
      printers := [];
      selectedPrinter := None;
      isScanning := false;
      isPrinting := false;
      printSuccess := None;
    }

    /** The print buttons show exactly when a printer is selected and it is online. */
    predicate PrintOptionsVisible()
      reads this
    {
      selectedPrinter.Some? && selectedPrinter.value.status == Online
    }

    /** `scanPrinters` up to its `await`. */
    method BeginScan()
      modifies this
      ensures isScanning
      ensures printers == old(printers) && selectedPrinter == old(selectedPrinter)
      ensures isPrinting == old(isPrinting) && printSuccess == old(printSuccess)
    {
      isScanning := true;
    }

    /**
     * The rest of `scanPrinters`, given the discovered list, or `None` when
     * discovery threw: the `finally` ends the scan either way. A list replaces
     * `printers` and moves the selection to its first online printer, keeping
     * the old selection when none is online.
     */
    method CompleteScan(found: Option<seq<PrinterDevice>>)
      modifies this
      ensures !isScanning
      ensures found.Some? ==> printers == found.value
      ensures found.Some? && FindOnline(found.value).Some? ==> selectedPrinter == FindOnline(found.value)
      ensures found.Some? && FindOnline(found.value).None? ==> selectedPrinter == old(selectedPrinter)
      ensures found.None? ==> printers == old(printers) && selectedPrinter == old(selectedPrinter)
      ensures isPrinting == old(isPrinting) && printSuccess == old(printSuccess)
    {
      if found.Some? {
        printers := found.value;
        var online := FindOnline(found.value);
        if online.Some? {
          selectedPrinter := online;
        }
      }
      isScanning := false;
    }

    /** The scan that opening the panel runs, over the mock discovery list. */
    method Scan()
      modifies this
      ensures !isScanning && printers == DiscoveredPrinters
      ensures selectedPrinter == Some(DiscoveredPrinters[0]) && PrintOptionsVisible()
      ensures isPrinting == old(isPrinting) && printSuccess == old(printSuccess)
    {
      BeginScan();
      CompleteScan(Some(DiscoveredPrinters));
      DiscoverySelectsFirstPrinter();
    }

    /** A printer in the list clicked. */
    method SelectPrinter(p: PrinterDevice)
      modifies this
      ensures selectedPrinter == Some(p)
      ensures printers == old(printers) && isScanning == old(isScanning) && isPrinting == old(isPrinting)
      ensures printSuccess == old(printSuccess)
    {
      selectedPrinter := Some(p);
    }

    /**
     * `handlePrintLabel` / `handlePrintTicket` up to the `await`: without a
     * selected printer nothing happens and no job is sent; otherwise the panel
     * is busy, the last success message is cleared, and `content` goes to the
     * selected printer.
     */
    method BeginPrint(content: string) returns (job: Option<PrintJob>)
      modifies this
      ensures selectedPrinter == old(selectedPrinter) && printers == old(printers) && isScanning == old(isScanning)
      ensures old(selectedPrinter).None? ==>
        job.None? && isPrinting == old(isPrinting) && printSuccess == old(printSuccess)
      ensures old(selectedPrinter).Some? ==>
        job == Some(PrintJob(old(selectedPrinter).value.id, content)) && isPrinting && printSuccess.None?
    {
      if selectedPrinter.None? {
        return None;
      }
      isPrinting := true;
      printSuccess := None;
      job := Some(PrintJob(selectedPrinter.value.id, content));
    }

    /** The rest of a print handler: no longer busy, and `message` shown if the printer reported success. */
    method CompletePrint(result: PrintResult, message: string)
      modifies this
      ensures !isPrinting
      ensures printSuccess == if result.success then Some(message) else old(printSuccess)
      ensures selectedPrinter == old(selectedPrinter) && printers == old(printers) && isScanning == old(isScanning)
    {
      isPrinting := false;
      if result.success {
        printSuccess := Some(message);
      }
    }

    /** `handlePrintLabel` end to end: prints the sample inventory label and reports success. */
    method PrintLabel() returns (job: Option<PrintJob>)
      modifies this
      ensures selectedPrinter == old(selectedPrinter) && printers == old(printers) && isScanning == old(isScanning)
      ensures old(selectedPrinter).None? ==>
        job.None? && isPrinting == old(isPrinting) && printSuccess == old(printSuccess)
      ensures old(selectedPrinter).Some? ==>
        job == Some(PrintJob(old(selectedPrinter).value.id, GenerateInventoryLabel(SampleItem))) &&
        !isPrinting && printSuccess == Some(LabelPrinted)
    {
      job := BeginPrint(GenerateInventoryLabel(SampleItem));
      if job.Some? {
        var result := PrintToNetworkPrinter(job.value.printerId, job.value.content);
        CompletePrint(result, LabelPrinted);
      }
    }

    /**
     * `handlePrintTicket` end to end at time `now` (milliseconds), with the
     * locale date and time text: prints the sample ticket and reports success.
     */
    method PrintTicket(now: nat, date: string, time: string) returns (job: Option<PrintJob>)
      modifies this
      ensures selectedPrinter == old(selectedPrinter) && printers == old(printers) && isScanning == old(isScanning)
      ensures old(selectedPrinter).None? ==>
        job.None? && isPrinting == old(isPrinting) && printSuccess == old(printSuccess)
      ensures old(selectedPrinter).Some? ==>
        job == Some(PrintJob(old(selectedPrinter).value.id, GenerateMaintenanceTicket(SampleTicket(now), date, time))) &&
        !isPrinting && printSuccess == Some(TicketPrinted)
    {
      job := BeginPrint(GenerateMaintenanceTicket(SampleTicket(now), date, time));
      if job.Some? {
        var result := PrintToNetworkPrinter(job.value.printerId, job.value.content);
        CompletePrint(result, TicketPrinted);
      }
    }
  }
}
