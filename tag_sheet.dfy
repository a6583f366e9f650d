/**
 * The post-writing sheet's tag picker: the list of all tags, the list of tags
 * the user may pick (adjusted by verification status), and the set picked.
 * The picked set only ever holds enabled tags.
 */
module TagSheet {

  const InitialTags: seq<string> := [
    "예비사장님", "알바/직원", "손님", "고민글", "정보", "질문/조언", "후기",
    "초보사장님", "고수사장님"]

  const InitialEnabledTags: seq<string> := [
    "예비사장님", "알바/직원", "손님", "고민글", "정보", "질문/조언", "후기"]

  /** Every picked tag is an enabled one. */
  predicate SelectionWithin(selected: set<string>, enabled: seq<string>) {
    forall t :: t in selected ==> t in enabled
  }

  /**
   * The selection after `toggleTag(tag)`: a tag that is not enabled changes
   * nothing; an enabled tag is removed if picked and added otherwise; no
   * other tag is touched.
   */
  function ToggleSelection(selected: set<string>, enabled: seq<string>, tag: string): (r: set<string>)
    ensures tag !in enabled ==> r == selected
    ensures tag in enabled ==> (tag in r <==> tag !in selected)
    ensures r - {tag} == selected - {tag}
  {
    if tag !in enabled then selected
    else if tag in selected then selected - {tag}
    else selected + {tag}
  }

  /** Toggling the same tag twice restores the selection. */
  lemma ToggleTwice(selected: set<string>, enabled: seq<string>, tag: string)
    ensures ToggleSelection(ToggleSelection(selected, enabled, tag), enabled, tag) == selected
  {
  }

  lemma ToggleStaysWithin(selected: set<string>, enabled: seq<string>, tag: string)
    requires SelectionWithin(selected, enabled)
    ensures SelectionWithin(ToggleSelection(selected, enabled, tag), enabled)
  {
  }

  /** Initially the enabled tags are the first seven of all tags. */
  lemma InitialEnabledAreTags()
    ensures InitialEnabledTags == InitialTags[..7]
    ensures forall t :: t in InitialEnabledTags ==> t in InitialTags
  {
  }

  class PostBottomSheetViewModel {
    var tags: seq<string>
    var enabledTags: seq<string>
    var selectedTags: set<string>

    ghost predicate Valid()
      reads this
    {
      SelectionWithin(selectedTags, enabledTags)
    }

    constructor ()
      ensures Valid()
      ensures tags == InitialTags && enabledTags == InitialEnabledTags && selectedTags == {}
    {
      tags := InitialTags;
      enabledTags := InitialEnabledTags;
      selectedTags := {};
    }

    method ToggleTag(tag: string)
      modifies this`selectedTags
      ensures selectedTags == ToggleSelection(old(selectedTags), enabledTags, tag)
      ensures old(Valid()) ==> Valid()
    {
      if tag !in enabledTags {
        return;
      }
      if tag in selectedTags {
        selectedTags := selectedTags - {tag};
      } else {
        selectedTags := selectedTags + {tag};
      }
    }

    method ClearSelection()
      modifies this`selectedTags
      ensures selectedTags == {} && Valid()
    {
      selectedTags := {};
    }

    method SetTags(newTags: seq<string>, newEnabledTags: seq<string>)
      modifies this
      ensures tags == newTags && enabledTags == newEnabledTags && selectedTags == {}
      ensures Valid()
    {
      tags := newTags;
      enabledTags := newEnabledTags;
      selectedTags := {};
    }
  }
}
