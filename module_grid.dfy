/**
 * The module grid (`src/components/ModuleGrid.tsx`): nine module cards, each
 * guarded by a password that the client checks itself through the password
 * dialog before it shows the module's page.
 */
module ModuleGrid {
  import opened JsStrings
  import VerifyModuleAccess
  import PasswordModal

  /** A module card; the icon is markup and is not modelled. */
  datatype Module = Module(id: int, name: string, description: string, password: string, color: string)

  const Modules: seq<Module> := [
    Module(1, "Booking Sarana", "Reservasi ruangan & fasilitas", "user_@1234", "from-primary to-rose-glow"),
    Module(2, "Form K3", "Laporan Keselamatan Kerja", "user_@1234", "from-bidara to-secondary"),
    Module(3, "Laporan Sekuriti", "Shift & monitoring keamanan", "LHPSsec_AF2025", "from-navy-deep to-bidara-dark"),
    Module(4, "Janitor Gedung", "Ceklis kebersihan 32 ruangan", "CHCS_AF_@003", "from-rose-deep to-primary"),
    Module(5, "Janitor Taman", "Outdoor & playground", "SACS_AF@004", "from-bidara to-bidara-dark"),
    Module(6, "Stok & Alat CS", "Monitoring perlengkapan", "SACS_AF@004", "from-gold-shine to-primary"),
    Module(7, "Maintenance", "Ticket perbaikan fasilitas", "M41n_4F@234", "from-secondary to-bidara"),
    Module(8, "R. Kerja Admin", "Approval & monitoring", "4dm1n_AF6969@00", "from-primary to-rose-deep"),
    Module(9, "Master Admin", "Konfigurasi & audit log", "4dm1n_Sec2025", "from-navy-deep to-rose-deep")
  ]

  /** Nine cards, numbered 1 to 9 in order, so their ids are distinct. */
  lemma ModuleTable()
    ensures |Modules| == 9
    ensures forall i :: 0 <= i < |Modules| ==> Modules[i].id == i + 1
    ensures forall i, j :: 0 <= i < j < |Modules| ==> Modules[i].id != Modules[j].id
  {
  }

  /**
   * The client's table and the server's agree: every card's password is the
   * server's secret for its id, and every id the server knows has a card.
   */
  lemma ClientPasswordsMatchServer()
    ensures forall m :: m in Modules ==>
      m.id in VerifyModuleAccess.ModulePasswords && VerifyModuleAccess.ModulePasswords[m.id] == m.password
    ensures forall id :: id in VerifyModuleAccess.ModulePasswords ==> 0 < id <= |Modules| && Modules[id - 1].id == id
  {
    forall i | 0 <= i < |Modules|
      ensures Modules[i].id in VerifyModuleAccess.ModulePasswords
      ensures VerifyModuleAccess.ModulePasswords[Modules[i].id] == Modules[i].password
    {
      CardMatchesServer(i);
    }
    ServerIdsHaveCards();
  }

  /** Every id the server knows is the id of the card at that position. */
  lemma ServerIdsHaveCards()
    ensures forall id :: id in VerifyModuleAccess.ModulePasswords ==> 0 < id <= |Modules| && Modules[id - 1].id == id
  {
    ModuleTable();
    assert VerifyModuleAccess.ModulePasswords.Keys == {1, 2, 3, 4, 5, 6, 7, 8, 9};
  }

  /** One card's password is the server's secret for its id. */
  lemma CardMatchesServer(i: int)
    requires 0 <= i < |Modules|
    ensures Modules[i].id in VerifyModuleAccess.ModulePasswords
    ensures VerifyModuleAccess.ModulePasswords[Modules[i].id] == Modules[i].password
  {
    if i == 0 {} else if i == 1 {} else if i == 2 {} else if i == 3 {} else if i == 4 {}
    else if i == 5 {} else if i == 6 {} else if i == 7 {} else {}
  }

  /** For any card, the client accepts a password exactly when the server would. */
  lemma ClientCheckAgreesWithServer(m: Module, password: string)
    requires m in Modules
    ensures m.id in VerifyModuleAccess.ModulePasswords
    ensures password == m.password <==> VerifyModuleAccess.ModuleValid(m.id, Some(password))
  {
    ClientPasswordsMatchServer();
  }

  class Grid {
    var selectedModule: Option<Module>
    var isModalOpen: bool
    var accessedModule: Option<Module>

    constructor ()
      ensures selectedModule.None? && !isModalOpen && accessedModule.None?
    {
      selectedModule := None;
      isModalOpen := false;
      accessedModule := None;
    }

    /** The grid is replaced by the module's page exactly when a module has been accessed. */
    predicate ShowsModulePage()
      reads this
    {
      accessedModule.Some?
    }

    /** The `correctPassword` prop, `selectedModule?.password || ''`: empty when nothing is selected. */
    function ExpectedPassword(): (r: string)
      reads this
      ensures selectedModule.None? ==> r == ""
      ensures selectedModule.Some? ==> r == selectedModule.value.password
    {
      if selectedModule.Some? && selectedModule.value.password != "" then selectedModule.value.password else ""
    }

    /** A card click: select the module and open the dialog. */
    method HandleModuleClick(m: Module)
      modifies this
      ensures selectedModule == Some(m) && isModalOpen
      ensures accessedModule == old(accessedModule)
    {
      selectedModule := Some(m);
      isModalOpen := true;
    }

    /** The dialog's `onSuccess`: the selected module becomes the accessed one. */
    method HandlePasswordSuccess()
      modifies this
      ensures accessedModule == selectedModule
      ensures selectedModule == old(selectedModule) && isModalOpen == old(isModalOpen)
    {
      accessedModule := selectedModule;
    }

    /** The module page's back button. */
    method HandleBackToGrid()
      modifies this
      ensures accessedModule.None?
      ensures selectedModule == old(selectedModule) && isModalOpen == old(isModalOpen)
    {
      accessedModule := None;
    }

    /** The dialog's `onClose`. */
    method CloseModal()
      modifies this
      ensures !isModalOpen
      ensures selectedModule == old(selectedModule) && accessedModule == old(accessedModule)
    {
      isModalOpen := false;
    }
  }

  /**
   * Submitting the dialog the grid has open, with its success timer taken to
   * fire straight away: `onSuccess` then `handleClose`, which calls `onClose`.
   * A module page opens only for the selected card and only with the password
   * the server would accept for it; with nothing selected nothing opens. An
   * accepted password leaves the dialog in its initial state, as a remount does.
   */
  method SubmitPassword(grid: Grid, modal: PasswordModal.Modal) returns (accepted: bool)
    requires modal.Valid() && !modal.SubmitDisabled()
    modifies grid, modal
    ensures modal.Valid()
    ensures accepted <==> old(modal.password) == old(grid.ExpectedPassword())
    ensures accepted ==> grid.accessedModule == old(grid.selectedModule) && !grid.isModalOpen &&
                         modal.password == "" && !modal.showPassword && modal.error == "" && !modal.isSuccess
    ensures !accepted ==> grid.accessedModule == old(grid.accessedModule) && grid.isModalOpen == old(grid.isModalOpen) &&
                          modal.error == PasswordModal.WrongPasswordError
    ensures grid.selectedModule == old(grid.selectedModule)
    ensures old(grid.selectedModule).None? ==> !accepted
    ensures accepted && old(grid.selectedModule).Some? && old(grid.selectedModule).value in Modules ==>
      var m := old(grid.selectedModule).value;
      m.id in VerifyModuleAccess.ModulePasswords && VerifyModuleAccess.ModuleValid(m.id, Some(old(modal.password)))
  {
    accepted := modal.HandleSubmit(grid.ExpectedPassword());
    if accepted {
      grid.HandlePasswordSuccess();
      modal.HandleClose();
      grid.CloseModal();
      // The grid now renders the module page alone, which unmounts the dialog:
      // the next dialog starts with the password hidden again.
      modal.showPassword := false;
      if grid.selectedModule.Some? && grid.selectedModule.value in Modules {
        ClientCheckAgreesWithServer(grid.selectedModule.value, old(modal.password));
      }
    }
  }
}
