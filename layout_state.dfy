/**
  StatusLayoutState: the attached QML property object that exposes an item's
  `opened` state inside a section layout. A one-bit cell whose setter emits
  openedChanged only when the value changes.
*/
module LayoutState {

  /** A QObject that can parent the attached state. */
  class QtObject {
    constructor () { }
  }

  class StatusLayoutState {
    /** The QObject parent. */
    const parent: QtObject?
    /** m_opened */
    var mOpened: bool
    /** How many times openedChanged has been emitted. */
    var openedChangedEmitted: nat

    /** StatusLayoutState(parent): m_opened starts false. */
    constructor (parent: QtObject?)
      ensures this.parent == parent && !mOpened && openedChangedEmitted == 0
    {
      this.parent := parent;
      mOpened := false;
      openedChangedEmitted := 0;
    }

    /** qmlAttachedProperties(object): a fresh instance in the default state, parented to the object. */
    static method QmlAttachedProperties(owner: QtObject?) returns (state: StatusLayoutState)
      ensures fresh(state)
      ensures state.parent == owner && !state.Opened() && state.openedChangedEmitted == 0
    {
      state := new StatusLayoutState(owner);
    }

    /** The opened() getter. */
    function Opened(): bool
      reads this
    {
      mOpened
    }

    /** setOpened(b): afterwards opened() is b; the signal is emitted exactly when
        the value changed. */
    method SetOpened(value: bool)
      modifies this
      ensures Opened() == value
      ensures openedChangedEmitted == old(openedChangedEmitted) + (if old(Opened()) == value then 0 else 1)
    {
      if mOpened == value {
        return;
      }
      mOpened := value;
      openedChangedEmitted := openedChangedEmitted + 1;
    }
  }

  /** Setting the same value twice emits at most one signal: the second call changes nothing. */
  method SetOpenedTwice(state: StatusLayoutState, value: bool)
    modifies state
    ensures state.Opened() == value
    ensures state.openedChangedEmitted <= old(state.openedChangedEmitted) + 1
    ensures old(state.Opened()) == value ==> state.openedChangedEmitted == old(state.openedChangedEmitted)
  {
    state.SetOpened(value);
    ghost var afterFirst := state.openedChangedEmitted;
    state.SetOpened(value);
    assert state.openedChangedEmitted == afterFirst;
  }

  /** Open, close and reopen a fresh attached state: three changes, three signals;
      repeating the last value adds none. */
  method ToggleScenario() returns (emitted: nat, isOpened: bool)
    ensures emitted == 3 && isOpened
  {
    var owner := new QtObject();
    var state := StatusLayoutState.QmlAttachedProperties(owner);
    state.SetOpened(false);
    state.SetOpened(true);
    state.SetOpened(false);
    state.SetOpened(true);
    state.SetOpened(true);
    emitted, isOpened := state.openedChangedEmitted, state.Opened();
  }
}
