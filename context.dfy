/**
 * DataSourceContextService: the slot holding the JdbcTemplate of the most recent
 * successful connect. In Java it is a static ThreadLocal; here it is one
 * session's slot, an object every registry and handler of that session shares.
 */
module DataSourceContext {
  import opened Wrappers
  import opened Pools

  class ContextSlot {
    /** The current template, or None for Java's null. */
    var current: Option<Handle>

    /** A fresh ThreadLocal: nothing has been set. */
    constructor ()
      ensures current == None
    {
      current := None;
    }

    /** `setCurrentTemplate(t)`; setting null leaves the slot reading null. */
    method SetCurrentTemplate(t: Option<Handle>)
      modifies this
      ensures current == t
    {
      current := t;
    }

    /** `getCurrentTemplate()`. */
    method GetCurrentTemplate() returns (t: Option<Handle>)
      ensures t == current
    {
      t := current;
    }

    /** `clear()`: `ThreadLocal.remove`, after which the slot reads null. */
    method Clear()
      modifies this
      ensures current == None
    {
      current := None;
    }
  }

  /**
   * One session's slot through a sequence of calls: a get before any set, two
   * sets in a row, and two clears in a row.
   */
  method SlotLifecycle(first: Handle, second: Handle)
    returns (initially: Option<Handle>, afterSets: Option<Handle>, afterClear: Option<Handle>, afterSecondClear: Option<Handle>)
    ensures initially == None
    ensures afterSets == Some(second)
    ensures afterClear == None && afterSecondClear == None
  {
    var slot := new ContextSlot();
    initially := slot.GetCurrentTemplate();
    slot.SetCurrentTemplate(Some(first));
    slot.SetCurrentTemplate(Some(second));
    afterSets := slot.GetCurrentTemplate();
    slot.Clear();
    afterClear := slot.GetCurrentTemplate();
    slot.Clear();
    afterSecondClear := slot.GetCurrentTemplate();
  }
}
