/**
 * The WiFi printer service (`src/services/wifiPrinter.ts`): the mock printer
 * discovery list, the fixed-width inventory label and maintenance ticket
 * templates, and the simulated print call.
 */
module WifiPrinter {
  import opened JsStrings

  datatype PrinterType = Thermal | Inkjet | Laser
  datatype PrinterStatus = Online | Offline | Busy

  datatype PrinterDevice = PrinterDevice(
    id: string,
    name: string,
    ip: string,
    kind: PrinterType,
    status: PrinterStatus,
    capabilities: seq<string>)

  /** The list `discoverPrinters` resolves with (after its simulated one-second scan). */
  const DiscoveredPrinters: seq<PrinterDevice> := [
    PrinterDevice("printer-001", "Thermal Zebra ZD420", "192.168.1.100", Thermal, Online, ["label", "barcode", "qr"]),
    PrinterDevice("printer-002", "Epson TM-T88VI", "192.168.1.101", Thermal, Online, ["ticket", "receipt"]),
    PrinterDevice("printer-003", "Brother QL-820NWB", "192.168.1.102", Thermal, Offline, ["label", "badge"])
  ]

  /** Discovery finds three printers with distinct ids, and only printer-003 is offline. */
  lemma DiscoveredPrintersShape()
    ensures |DiscoveredPrinters| == 3
    ensures forall i, j :: 0 <= i < j < |DiscoveredPrinters| ==> DiscoveredPrinters[i].id != DiscoveredPrinters[j].id
    ensures forall p :: p in DiscoveredPrinters ==> (p.status == Offline <==> p.id == "printer-003")
    ensures forall p :: p in DiscoveredPrinters ==> p.status != Busy
  {
  }

  // ---------------------------------------------------------------------------
  // Inventory label

  datatype InventoryItem = InventoryItem(id: string, name: string, location: string, condition: string)

  const LabelTop: string := "╔══════════════════════════════════════╗"
  const LabelSchool: string := "║       AL FIKRI ISLAMIC SCHOOL        ║"
  const LabelTitle: string := "║          INVENTARIS ASET             ║"
  const LabelRule: string := "╠══════════════════════════════════════╣"
  const LabelQr: string := "║         [QR CODE PLACEHOLDER]        ║"
  const LabelBottom: string := "╚══════════════════════════════════════╝"

  /** The frame rows are all 40 characters wide. */
  const LabelWidth: nat := 40

  /** `s.substring(0, 28).padEnd(28)`: the name and location cells. */
  function LabelCell(s: string): (r: string)
    ensures |r| == 28
    ensures |s| <= 28 ==> s <= r
    ensures |s| > 28 ==> r == s[..28]
    ensures forall i :: |s| <= i < 28 ==> r[i] == ' '
  {
    PadEnd(Prefix(s, 28), 28)
  }

  /** The label's rows, top to bottom, as the template writes them. */
  function LabelLines(item: InventoryItem): seq<string> {
    [ LabelTop, LabelSchool, LabelTitle, LabelRule,
      "║ ID    : " + PadEnd(item.id, 28) + "║",
      "║ Nama  : " + LabelCell(item.name) + "║",
      "║ Lokasi: " + LabelCell(item.location) + "║",
      "║ Status: " + PadEnd(item.condition, 28) + "║",
      LabelRule, LabelQr, LabelBottom ]
  }

  /** `generateInventoryLabel(item)`: the template literal, trimmed. */
  function GenerateInventoryLabel(item: InventoryItem): string {
    Trim("\n" + JoinLines(LabelLines(item)) + "\n  ")
  }

  /** Trimming removes only the template's own leading line break and trailing indentation. */
  lemma InventoryLabelIsItsRows(item: InventoryItem)
    ensures GenerateInventoryLabel(item) == JoinLines(LabelLines(item))
    ensures LabelTop <= GenerateInventoryLabel(item)
  {
    var body := JoinLines(LabelLines(item));
    assert body[0] == LabelTop[0];
    assert body[|body| - 1] == LabelBottom[|LabelBottom| - 1];
    TrimIndentedTemplate(body);
  }

  /**
   * The name and location cells are exactly 28 characters: the first 28
   * characters of the input, padded with spaces when it is shorter.
   */
  lemma NameAndLocationCells(item: InventoryItem)
    ensures var rows := LabelLines(item);
      && |rows[5]| == 39 && rows[5][10..38] == LabelCell(item.name)
      && |rows[6]| == 39 && rows[6][10..38] == LabelCell(item.location)
  {
  }

  /**
   * The id and condition cells are only padded, never truncated: the whole
   * input appears after the caption, and the row grows past the frame when
   * the input is longer than 28 characters.
   */
  lemma IdAndConditionUntruncated(item: InventoryItem)
    ensures var rows := LabelLines(item);
      && |rows[4]| == 11 + (if |item.id| < 28 then 28 else |item.id|)
      && item.id <= rows[4][10..]
      && |rows[7]| == 11 + (if |item.condition| < 28 then 28 else |item.condition|)
      && item.condition <= rows[7][10..]
  {
    var rows := LabelLines(item);
    assert rows[4][10..] == PadEnd(item.id, 28) + "║";
    assert rows[7][10..] == PadEnd(item.condition, 28) + "║";
  }

  /**
   * As written, each field row is one column narrower than the frame: the
   * border and caption (ten characters), a 28-character cell and the closing
   * border make 39 characters against the frame's 40, for every item whose id
   * and condition fit the cell.
   */
  lemma LabelFieldRowsOneShort(item: InventoryItem)
    requires |item.id| <= 28 && |item.condition| <= 28
    ensures var rows := LabelLines(item);
      && (forall i :: 0 <= i < 4 || 8 <= i < 11 ==> |rows[i]| == LabelWidth)
      && (forall i :: 4 <= i < 8 ==> |rows[i]| == LabelWidth - 1)
  {
  }

  /** A cell of `n` columns: the first `n` characters of `s`, padded with spaces. */
  function FitCell(s: string, n: nat): (r: string)
    ensures |r| == n
    ensures r[..(if |s| < n then |s| else n)] == s[..(if |s| < n then |s| else n)]
    ensures forall i :: |s| <= i < n ==> r[i] == ' '
  {
    PadEnd(Prefix(s, n), n)
  }

  /** The label with 29-column cells, which close every field row on the frame's right border. */
  function AlignedLabelLines(item: InventoryItem): seq<string> {
    [ LabelTop, LabelSchool, LabelTitle, LabelRule,
      "║ ID    : " + FitCell(item.id, 29) + "║",
      "║ Nama  : " + FitCell(item.name, 29) + "║",
      "║ Lokasi: " + FitCell(item.location, 29) + "║",
      "║ Status: " + FitCell(item.condition, 29) + "║",
      LabelRule, LabelQr, LabelBottom ]
  }

  /** Every row of the aligned label is exactly as wide as the frame, whatever the item. */
  lemma AlignedLabelRowsFitFrame(item: InventoryItem)
    ensures var rows := AlignedLabelLines(item);
      |rows| == 11 && forall i :: 0 <= i < |rows| ==> |rows[i]| == LabelWidth
  {
  }

  /** The inventory label with aligned rows, trimmed as the template is, as the evidently intended layout would print it. */
  function GenerateAlignedInventoryLabel(item: InventoryItem): string {
    Trim("\n" + JoinLines(AlignedLabelLines(item)) + "\n  ")
  }

  /** Trimming the aligned label removes only the template's own leading line break and trailing indentation. */
  lemma AlignedLabelIsItsRows(item: InventoryItem)
    ensures GenerateAlignedInventoryLabel(item) == JoinLines(AlignedLabelLines(item))
    ensures LabelTop <= GenerateAlignedInventoryLabel(item)
  {
    var body := JoinLines(AlignedLabelLines(item));
    assert body[0] == LabelTop[0];
    assert body[|body| - 1] == LabelBottom[|LabelBottom| - 1];
    TrimIndentedTemplate(body);
  }

  /** The aligned id and condition cells show the whole input whenever it fits the 29 columns. */
  lemma AlignedIdAndConditionShown(item: InventoryItem)
    ensures |item.id| <= 29 ==> item.id <= AlignedLabelLines(item)[4][10..]
    ensures |item.condition| <= 29 ==> item.condition <= AlignedLabelLines(item)[7][10..]
  {
    var rows := AlignedLabelLines(item);
    assert rows[4][10..] == FitCell(item.id, 29) + "║";
    assert rows[7][10..] == FitCell(item.condition, 29) + "║";
  }

  // ---------------------------------------------------------------------------
  // Maintenance ticket

  datatype Priority = Low | Medium | High | Urgent

  /** The `priorityLabel` lookup. */
  function PriorityLabel(p: Priority): string {
    match p
    case Low => "🟢 RENDAH"
    case Medium => "🟡 SEDANG"
    case High => "🟠 TINGGI"
    case Urgent => "🔴 URGENT"
  }

  /** Each priority has its own label. */
  lemma PriorityLabelsDistinct(p: Priority, q: Priority)
    ensures PriorityLabel(p) == PriorityLabel(q) <==> p == q
  {
  }

  /**
   * A maintenance ticket. `createdAt` is not part of it: its date and time
   * text, formatted for the `id-ID` locale, are given to the template instead.
   */
  datatype Ticket = Ticket(id: string, priority: Priority, description: string, location: string, reporter: string)

  const TicketTop: string := "┌────────────────────────────────────────┐"
  const TicketTitle: string := "│          TICKET MAINTENANCE            │"
  const TicketSchool: string := "│          AL FIKRI SCHOOL               │"
  const TicketRule: string := "├────────────────────────────────────────┤"
  const TicketDescriptionCaption: string := "│ Deskripsi:                             │"
  const TicketStatus: string := "│ Status: ⏳ MENUNGGU DITANGANI         │"
  const TicketBottom: string := "└────────────────────────────────────────┘"

  /** The ticket's rows, top to bottom, with the locale date and time text as `date` and `time`. */
  function TicketLines(t: Ticket, date: string, time: string): seq<string> {
    [ TicketTop, TicketTitle, TicketSchool, TicketRule,
      "│ Ticket #: " + t.id + "                 │",
      "│ Prioritas: " + PriorityLabel(t.priority) + "               │",
      TicketRule, TicketDescriptionCaption,
      "│ " + Prefix(t.description, 38) + "│",
      TicketRule,
      "│ Lokasi  : " + PadEnd(t.location, 27) + "│",
      "│ Pelapor : " + PadEnd(t.reporter, 27) + "│",
      "│ Tanggal : " + PadEnd(date, 27) + "│",
      "│ Waktu   : " + PadEnd(time, 27) + "│",
      TicketRule, TicketStatus, TicketBottom ]
  }

  /** `generateMaintenanceTicket(ticket)`: the template literal, trimmed. */
  function GenerateMaintenanceTicket(t: Ticket, date: string, time: string): string {
    Trim("\n" + JoinLines(TicketLines(t, date, time)) + "\n  ")
  }

  /** Trimming removes only the template's own leading line break and trailing indentation. */
  lemma TicketIsItsRows(t: Ticket, date: string, time: string)
    ensures GenerateMaintenanceTicket(t, date, time) == JoinLines(TicketLines(t, date, time))
  {
    var body := JoinLines(TicketLines(t, date, time));
    assert body[0] == TicketTop[0];
    assert body[|body| - 1] == TicketBottom[|TicketBottom| - 1];
    TrimIndentedTemplate(body);
  }

  /**
   * The description row holds the first 38 characters of the description
   * (all of it when it is that short); the location and reporter cells hold
   * the whole input padded with spaces to 27 characters.
   */
  lemma TicketCells(t: Ticket, date: string, time: string)
    ensures var rows := TicketLines(t, date, time);
      var d := rows[8][2..|rows[8]| - 1];
      && d == Prefix(t.description, 38)
      && |d| <= 38 && d <= t.description
      && (|t.description| <= 38 ==> d == t.description)
    ensures var rows := TicketLines(t, date, time);
      && rows[10][12..|rows[10]| - 1] == PadEnd(t.location, 27)
      && rows[11][12..|rows[11]| - 1] == PadEnd(t.reporter, 27)
      && t.location <= rows[10][12..|rows[10]| - 1] && |rows[10]| - 13 >= 27
      && t.reporter <= rows[11][12..|rows[11]| - 1] && |rows[11]| - 13 >= 27
  {
    var rows := TicketLines(t, date, time);
    assert rows[8][2..|rows[8]| - 1] == Prefix(t.description, 38);
    assert rows[10][12..|rows[10]| - 1] == PadEnd(t.location, 27);
    assert rows[11][12..|rows[11]| - 1] == PadEnd(t.reporter, 27);
  }

  // ---------------------------------------------------------------------------
  // Printing

  datatype PrintResult = PrintResult(success: bool, message: string)

  const PrintedPrefix: string := "Berhasil mencetak "
  const PrintedSuffix: string := " salinan ke printer"

  /**
   * `printToNetworkPrinter(printerId, content, copies = 1)`: the simulated job
   * always succeeds and reports the number of copies.
   */
  function PrintToNetworkPrinter(printerId: string, content: string, copies: nat := 1): (r: PrintResult)
    ensures r.success
    ensures PrintedPrefix <= r.message
  {
    PrintResult(true, PrintedPrefix + Decimal(copies) + PrintedSuffix)
  }

  /** The copy count read back from a print message: the digits between the fixed phrases. */
  function CopiesReported(message: string): Option<nat> {
    if |message| >= |PrintedPrefix| + |PrintedSuffix| then
      var digits := message[|PrintedPrefix|..|message| - |PrintedSuffix|];
      if forall i :: 0 <= i < |digits| ==> IsDigit(digits[i]) then Some(ParseDecimal(digits)) else None
    else None
  }

  /** The message reports exactly the requested copy count; without one it reports a single copy. */
  lemma PrintMessageReportsCopies(printerId: string, content: string, copies: nat)
    ensures CopiesReported(PrintToNetworkPrinter(printerId, content, copies).message) == Some(copies)
    ensures CopiesReported(PrintToNetworkPrinter(printerId, content).message) == Some(1)
  {
    var m := PrintToNetworkPrinter(printerId, content, copies).message;
    assert m[|PrintedPrefix|..|m| - |PrintedSuffix|] == Decimal(copies);
    DecimalRoundTrip(copies);
    var m1 := PrintToNetworkPrinter(printerId, content).message;
    assert m1[|PrintedPrefix|..|m1| - |PrintedSuffix|] == Decimal(1);
    DecimalRoundTrip(1);
  }
}
