/**
 * The dialog controller of `initModals` (scripts.js:300-346): a stack of one
 * held in `activeModal`.  Modals are named by their element ids; the set of
 * ids present in the page is fixed.  The `open` class and `aria-hidden="false"`
 * are always set and cleared together, so one set of ids stands for both.
 */
module Modals {
  import opened Wrappers

  type ModalId = string

  datatype ModalState = ModalState(
    present: set<ModalId>,      // ids that `document.getElementById` finds
    openModals: set<ModalId>,   // modals carrying the `open` class
    bodyModalOpen: bool,        // the body's `modal-open` class
    active: Option<ModalId>)    // `activeModal`

  /** At most one modal is open, it is the active one, and the body class says whether there is one. */
  ghost predicate StackOfOne(s: ModalState) {
    && s.openModals == (if s.active.Some? then {s.active.value} else {})
    && s.bodyModalOpen == s.active.Some?
    && (s.active.Some? ==> s.active.value in s.present)
  }

  /**
   * `closeModal` as the source writes it (scripts.js:318-325): it clears
   * `activeModal` and the body class whichever modal it is given.
   */
  function CloseAsWritten(s: ModalState, modal: Option<ModalId>): (r: ModalState)
    ensures modal.Some? ==> r.active.None? && !r.bodyModalOpen
    ensures modal.Some? ==> r.openModals == s.openModals - {modal.value} && r.present == s.present
    ensures modal.None? ==> r == s
  {
    if modal.None? then s
    else s.(openModals := s.openModals - {modal.value}, bodyModalOpen := false, active := None)
  }

  /**
   * The delayed `closeModal(form.closest(".modal"))` of a submitted form
   * (scripts.js:386-387) can reach a modal the user has already closed while
   * another one is open; the as-written close then forgets the open modal:
   * `activeModal` is null although a modal still has the `open` class, the
   * body loses `modal-open`, and Escape no longer closes it.
   */
  lemma CloseAsWrittenLosesOpenModal()
    ensures var s := ModalState({"briefModal", "callbackModal"}, {"callbackModal"}, true, Some("callbackModal"));
            var r := CloseAsWritten(s, Some("briefModal"));
            && StackOfOne(s)
            && !StackOfOne(r)
            && "callbackModal" in r.openModals
            && EscapeAsWritten(r, "Escape") == r
  {
    var s := ModalState({"briefModal", "callbackModal"}, {"callbackModal"}, true, Some("callbackModal"));
    var r := CloseAsWritten(s, Some("briefModal"));
    assert "callbackModal" != "briefModal";
    assert r.openModals == {"callbackModal"};
    assert "callbackModal" in r.openModals && r.active.None?;
  }

  /** The Escape handler (scripts.js:342-346) over the as-written close. */
  function EscapeAsWritten(s: ModalState, key: string): (r: ModalState)
    ensures s.active.None? ==> r == s
    ensures key != "Escape" ==> r == s
    ensures key == "Escape" && s.active.Some? ==>
      r.active.None? && s.active.value !in r.openModals && !r.bodyModalOpen
  {
    if key == "Escape" && s.active.Some? then CloseAsWritten(s, s.active) else s
  }

  /**
   * `closeModal` corrected: the given modal loses its open state, and the
   * active modal and the body class are reset only when it is the active one.
   */
  function Close(s: ModalState, modal: Option<ModalId>): (r: ModalState)
    ensures StackOfOne(s) ==> StackOfOne(r)
    ensures modal.Some? ==> modal.value !in r.openModals
    ensures modal.Some? && s.active == modal ==>
      r.active.None? && !r.bodyModalOpen && r.openModals == s.openModals - {modal.value}
    ensures modal.Some? && s.active != modal ==> r.active == s.active && r.bodyModalOpen == s.bodyModalOpen
    ensures r.present == s.present
  {
    if modal.None? then s
    else if s.active == modal then
      s.(openModals := s.openModals - {modal.value}, bodyModalOpen := false, active := None)
    else
      s.(openModals := s.openModals - {modal.value})
  }

  /**
   * `openModal` (scripts.js:303-316): a missing id or the already active
   * modal changes nothing; otherwise the active modal is closed first and the
   * requested one becomes the only open, active modal.
   */
  function Open(s: ModalState, id: ModalId): (r: ModalState)
    ensures id !in s.present || s.active == Some(id) ==> r == s
    ensures id in s.present && s.active != Some(id) ==> r.active == Some(id) && r.bodyModalOpen
    ensures StackOfOne(s) ==> StackOfOne(r)
    ensures StackOfOne(s) && id in s.present ==> r.openModals == {id}
    ensures r.present == s.present
  {
    if id !in s.present || s.active == Some(id) then s
    else
      var closed := if s.active.Some? then Close(s, s.active) else s;
      closed.(openModals := closed.openModals + {id}, bodyModalOpen := true, active := Some(id))
  }

  /** The Escape handler (scripts.js:342-346): closes the active modal, if any. */
  function Escape(s: ModalState, key: string): (r: ModalState)
    ensures StackOfOne(s) ==> StackOfOne(r)
    ensures StackOfOne(s) && key == "Escape" ==> r.openModals == {} && r.active.None?
    ensures key != "Escape" ==> r == s
  {
    if key == "Escape" && s.active.Some? then Close(s, s.active) else s
  }

  /**
   * Whatever sequence of opens, closes and Escapes happens, the corrected
   * controller keeps at most one modal open.
   */
  lemma {:induction false} StackOfOneAlways(s: ModalState, ops: seq<ModalOp>)
    requires StackOfOne(s)
    ensures StackOfOne(Apply(s, ops))
    ensures |Apply(s, ops).openModals| <= 1
    decreases |ops|
  {
    if ops != [] {
      StackOfOneAlways(Step(s, ops[0]), ops[1..]);
    } else {
      if s.active.Some? {
        assert s.openModals == {s.active.value};
      }
    }
  }

  /** The events of the controller: an open button, a close (overlay, x button, delayed form close), a key. */
  datatype ModalOp = OpenOp(id: ModalId) | CloseOp(modal: Option<ModalId>) | KeyOp(key: string)

  function Step(s: ModalState, op: ModalOp): ModalState {
    match op
    case OpenOp(id) => Open(s, id)
    case CloseOp(m) => Close(s, m)
    case KeyOp(k) => Escape(s, k)
  }

  function Apply(s: ModalState, ops: seq<ModalOp>): ModalState
    decreases |ops|
  {
    if ops == [] then s else Apply(Step(s, ops[0]), ops[1..])
  }

  /** The closure variable `activeModal` and the DOM state it governs. */
  class ModalController {
    const present: set<ModalId>
    var openModals: set<ModalId>
    var bodyModalOpen: bool
    var activeModal: Option<ModalId>

    function State(): ModalState
      reads this
    {
      ModalState(present, openModals, bodyModalOpen, activeModal)
    }

    ghost predicate Valid()
      reads this
    {
      StackOfOne(State())
    }

    /** Set-up (scripts.js:301), with every modal closed in the markup. */
    constructor (present: set<ModalId>)
      ensures Valid() && State() == ModalState(present, {}, false, None)
    {
      this.present := present;
      openModals, bodyModalOpen, activeModal := {}, false, None;
    }

    /** `closeModal`, corrected (see `Close`). */
    method CloseModal(modal: Option<ModalId>)
      modifies this
      ensures State() == Close(old(State()), modal)
      ensures old(Valid()) ==> Valid()
    {
      if modal.None? {
        return;
      }
      openModals := openModals - {modal.value};
      if activeModal == modal {
        bodyModalOpen := false;
        activeModal := None;
      }
    }

    /** `openModal` (scripts.js:303-316). */
    method OpenModal(id: ModalId)
      modifies this
      ensures State() == Open(old(State()), id)
      ensures old(Valid()) ==> Valid()
    {
      if id !in present || activeModal == Some(id) {
        return;
      }
      if activeModal.Some? {
        CloseModal(activeModal);
      }
      openModals := openModals + {id};
      bodyModalOpen := true;
      activeModal := Some(id);
    }

    /** The document keydown handler (scripts.js:342-346). */
    method OnKeyDown(key: string)
      modifies this
      ensures State() == Escape(old(State()), key)
      ensures old(Valid()) ==> Valid()
    {
      if key == "Escape" && activeModal.Some? {
        CloseModal(activeModal);
      }
    }
  }
}
