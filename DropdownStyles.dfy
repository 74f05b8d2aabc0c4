/**
  * Styling of the options of the default-context and default-language
  * dropdowns (`src/utils/dropdownStyles.ts`): which CSS classes and which
  * label suffix an option gets from being current, system default, or the
  * "no default" entry.
  */
module DropdownStyles {
  import opened Wrappers
  import opened Strings

  datatype Style = Current | SystemDefault | NoDefault

  /** `DROPDOWN_OPTION_STYLES` */
  function StyleClasses(s: Style): string
  {
    match s
    case Current => "font-semibold text-indigo-700"
    case SystemDefault => "font-medium text-blue-600"
    case NoDefault => "text-red-600"
  }

  const CurrentLabel := " (Current)"
  const SystemDefaultLabel := " (System Default)"
  const NoDefaultContextLabel := "No default context"
  const NoDefaultLanguageLabel := "No default language"

  /** The styles an option gets, in the order they are listed. */
  function OptionStyles(isCurrent: bool, isSystemDefault: bool, isNoDefault: bool): (r: seq<Style>)
    ensures Current in r <==> isCurrent
    ensures NoDefault in r <==> !isCurrent && isNoDefault
    ensures SystemDefault in r <==> isSystemDefault && !isCurrent
    ensures !(Current in r && NoDefault in r)
    ensures forall i, j :: 0 <= i < j < |r| ==> r[i] != r[j] && r[j] == SystemDefault
  {
    (if isCurrent then [Current] else if isNoDefault then [NoDefault] else [])
    + (if isSystemDefault && !isCurrent then [SystemDefault] else [])
  }

  function ClassList(styles: seq<Style>): (r: seq<string>)
    ensures |r| == |styles|
    ensures forall i :: 0 <= i < |styles| ==> r[i] == StyleClasses(styles[i])
  {
    if |styles| == 0 then [] else [StyleClasses(styles[0])] + ClassList(styles[1..])
  }

  /** `getDropdownOptionClasses`: the styles' classes joined by one space. */
  function OptionClasses(isCurrent: bool, isSystemDefault: bool, isNoDefault: bool): string
  {
    Join(ClassList(OptionStyles(isCurrent, isSystemDefault, isNoDefault)), " ")
  }

  /** With no flag set, no class. */
  lemma PlainOptionHasNoClasses()
    ensures OptionClasses(false, false, false) == ""
  {
  }

  /** The current option has the current classes only. */
  lemma {:induction false} CurrentOptionClasses(isSystemDefault: bool, isNoDefault: bool)
    ensures OptionClasses(true, isSystemDefault, isNoDefault) == "font-semibold text-indigo-700"
  {
    assert OptionStyles(true, isSystemDefault, isNoDefault) == [Current];
  }

  /** A non-current option gets the no-default or system-default classes alone. */
  lemma SingleStyleClasses()
    ensures OptionClasses(false, true, false) == "font-medium text-blue-600"
    ensures OptionClasses(false, false, true) == "text-red-600"
  {
    assert OptionStyles(false, true, false) == [SystemDefault];
    assert OptionStyles(false, false, true) == [NoDefault];
  }

  /** Both on a non-current option: no-default first, then system default. */
  lemma NoDefaultThenSystemDefault()
    ensures OptionClasses(false, true, true) == StyleClasses(NoDefault) + " " + StyleClasses(SystemDefault)
  {
    var styles := OptionStyles(false, true, true);
    assert styles == [NoDefault, SystemDefault];
    assert ClassList(styles) == [StyleClasses(NoDefault), StyleClasses(SystemDefault)];
    JoinTwo(StyleClasses(NoDefault), StyleClasses(SystemDefault), " ");
  }

  /** `getDropdownOptionLabel`: the suffixes joined without separator. */
  function OptionLabel(isCurrent: bool, isSystemDefault: bool): string
  {
    Join((if isCurrent then [CurrentLabel] else []) + (if isSystemDefault then [SystemDefaultLabel] else []), "")
  }

  /** " (Current)" iff current, followed by " (System Default)" iff system default. */
  lemma {:induction false} OptionLabelParts(isCurrent: bool, isSystemDefault: bool)
    ensures OptionLabel(isCurrent, isSystemDefault)
            == (if isCurrent then CurrentLabel else "") + (if isSystemDefault then SystemDefaultLabel else "")
  {
    if isCurrent && isSystemDefault {
      JoinTwo(CurrentLabel, SystemDefaultLabel, "");
      assert CurrentLabel + "" == CurrentLabel;
    }
  }

  /** A dropdown entry: its id and its `is_default` flag, possibly absent. */
  datatype DropdownOption = DropdownOption(id: string, internalName: string, isDefault: Option<bool>)

  datatype OptionProps = OptionProps(classes: string, labelSuffix: string, isCurrent: bool, isSystemDefault: bool)

  /** `createDropdownOptionProps` for an option (or the null "no default"
    * entry) against the selected value. */
  function CreateDropdownOptionProps(option: Option<DropdownOption>, currentValue: string, isNoDefault: bool): (r: OptionProps)
    ensures r.isCurrent <==> (option.Some? && option.value.id == currentValue) || (isNoDefault && currentValue == "")
    ensures r.isSystemDefault <==> option.Some? && option.value.isDefault == Some(true)
    ensures r.classes == OptionClasses(r.isCurrent, r.isSystemDefault, isNoDefault)
    ensures r.labelSuffix == OptionLabel(r.isCurrent, r.isSystemDefault)
  {
    var isCurrent := (option.Some? && option.value.id == currentValue) || (isNoDefault && currentValue == "");
    var isSystemDefault := option.Some? && option.value.isDefault == Some(true);
    OptionProps(OptionClasses(isCurrent, isSystemDefault, isNoDefault), OptionLabel(isCurrent, isSystemDefault),
                isCurrent, isSystemDefault)
  }

  /** The selected system default is shown as current only, but labelled as both. */
  lemma {:induction false} SelectedDefaultOption(o: DropdownOption)
    requires o.isDefault == Some(true)
    ensures CreateDropdownOptionProps(Some(o), o.id, false).classes == StyleClasses(Current)
    ensures CreateDropdownOptionProps(Some(o), o.id, false).labelSuffix == CurrentLabel + SystemDefaultLabel
  {
    CurrentOptionClasses(true, false);
    OptionLabelParts(true, true);
  }
}
