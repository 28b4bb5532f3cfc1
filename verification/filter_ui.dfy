/** The filter panel's visibility (src/stores/filterUI.js): one boolean and two actions. */
module FilterUI {

  class FilterUIStore {
    var showContent: bool

    /** The panel starts hidden. */
    constructor ()
      ensures !showContent
    {
      showContent := false;
    }

    method SetShowContent(value: bool)
      modifies this
      ensures showContent == value
    {
      showContent := value;
    }

    method ToggleShowContent()
      modifies this
      ensures showContent == !old(showContent)
    {
      showContent := !showContent;
    }
  }

  /** Setting the same value twice is the same as setting it once. */
  method SetTwice(ui: FilterUIStore, value: bool)
    modifies ui
    ensures ui.showContent == value
  {
    ui.SetShowContent(value);
    ui.SetShowContent(value);
  }

  /** Toggling twice restores the original value. */
  method ToggleTwice(ui: FilterUIStore)
    modifies ui
    ensures ui.showContent == old(ui.showContent)
  {
    ui.ToggleShowContent();
    ui.ToggleShowContent();
  }

  /** Setting a value and then toggling leaves its negation, whatever the state was before. */
  method SetThenToggle(ui: FilterUIStore, value: bool)
    modifies ui
    ensures ui.showContent == !value
  {
    ui.SetShowContent(value);
    ui.ToggleShowContent();
  }
}
