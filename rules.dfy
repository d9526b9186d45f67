/** The rules page: a list of custom rules the user adds and removes. */
module Rules {
  import opened Text
  import opened Lists

  /** The page's state: the custom rules and the rule being typed. */
  datatype Page = Page(customRules: seq<string>, newRule: string)

  /** `addCustomRule`: blank input is ignored; otherwise the trimmed rule goes last and the
      input is cleared. */
  function AddCustomRule(p: Page): (r: Page)
    ensures IsBlank(p.newRule) ==> r == p
    ensures !IsBlank(p.newRule) ==>
      r.customRules == p.customRules + [Trim(p.newRule)] && r.newRule == "" &&
      Trim(p.newRule) != [] && !IsSpace(Trim(p.newRule)[0])
  {
    if Trim(p.newRule) != "" then p.(customRules := p.customRules + [Trim(p.newRule)], newRule := "")
    else p
  }

  /** `removeCustomRule(index)`: only the rule at `index` goes, the rest keep their order; an
      index outside the list changes nothing. */
  function RemoveCustomRule(p: Page, index: int): (r: Page)
    ensures r.customRules == if 0 <= index < |p.customRules| then p.customRules[..index] + p.customRules[index + 1..]
      else p.customRules
    ensures r.newRule == p.newRule
  {
    DropIndexSlices(p.customRules, index);
    p.(customRules := DropIndex(p.customRules, index))
  }

  /** Removing the rule just added restores the list. */
  lemma RemoveAddedRule(p: Page)
    requires !IsBlank(p.newRule)
    ensures RemoveCustomRule(AddCustomRule(p), |p.customRules|).customRules == p.customRules
  {
    var q := AddCustomRule(p);
    assert q.customRules[..|p.customRules|] == p.customRules;
  }
}
