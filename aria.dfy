/** `useAria`: the screen-reader props for the reference and the floating
    element, chosen by the floating element's `role`. */
module Aria {
  import opened Types

  datatype Role = Tooltip | Dialog | Menu | Listbox

  function RoleName(role: Role): string {
    match role
    case Tooltip => "tooltip"
    case Dialog => "dialog"
    case Menu => "menu"
    case Listbox => "listbox"
  }

  /** An optional string prop: present with the value, or present as `undefined`. */
  function OptionalText(s: Option<string>): PropValue {
    if s.Some? then Text(s.value) else Undefined
  }

  /** `useAria(context, {enabled, role, titleId, descriptionId})` with the
      component's `rootId`; an absent `role` is `dialog`. */
  function UseAria(open: bool, enabled: bool, role: Option<Role>, titleId: Option<string>,
                   descriptionId: Option<string>, rootId: string): (p: ElementProps)
    ensures !enabled <==> p == NoProps
    ensures enabled ==> p.reference.Some? && p.floating.Some?
    // The floating element always carries the id and the role.
    ensures enabled ==> "id" in p.floating.value && "role" in p.floating.value &&
                        p.floating.value["id"] == Text(rootId) &&
                        p.floating.value["role"] == Text(RoleName(role.GetOr(Dialog)))
    // A tooltip describes its reference while open.
    ensures enabled && role == Some(Tooltip) ==>
              p.reference.value == map["aria-describedby" := if open then Text(rootId) else Undefined] &&
              p.floating.value.Keys == {"id", "role"}
    // Every other role marks the reference as a popup trigger; a listbox
    // reference is also a combobox, and no other prop is added.
    ensures enabled && role != Some(Tooltip) ==>
              p.reference.value.Keys == {"aria-expanded", "aria-haspopup", "aria-controls"} +
                                        (if role == Some(Listbox) then {"role"} else {}) &&
              p.reference.value["aria-expanded"] == Text(if open then "true" else "false") &&
              p.reference.value["aria-haspopup"] == Text(RoleName(role.GetOr(Dialog))) &&
              p.reference.value["aria-controls"] == (if open then Text(rootId) else Undefined) &&
              (role == Some(Listbox) ==> p.reference.value["role"] == Text("combobox"))
    // Only a dialog is labelled and described by its own parts.
    ensures enabled && role != Some(Tooltip) ==>
              p.floating.value.Keys == {"id", "role"} +
                                       (if role.GetOr(Dialog) == Dialog then {"aria-labelledby", "aria-describedby"} else {})
    ensures enabled && role.GetOr(Dialog) == Dialog ==>
              p.floating.value["aria-labelledby"] == OptionalText(titleId) &&
              p.floating.value["aria-describedby"] == OptionalText(descriptionId)
  {
    var r := role.GetOr(Dialog);
    var floatingProps := map["id" := Text(rootId), "role" := Text(RoleName(r))];
    if !enabled then NoProps
    else if r == Tooltip then
      ElementProps(Some(map["aria-describedby" := if open then Text(rootId) else Undefined]), Some(floatingProps))
    else
      var reference := map[
        "aria-expanded" := Text(if open then "true" else "false"),
        "aria-haspopup" := Text(RoleName(r)),
        "aria-controls" := if open then Text(rootId) else Undefined];
      ElementProps(
        Some(if r == Listbox then reference["role" := Text("combobox")] else reference),
        Some(if r == Dialog
             then floatingProps["aria-labelledby" := OptionalText(titleId)]["aria-describedby" := OptionalText(descriptionId)]
             else floatingProps))
  }

  /** While open, the reference points at the floating element by its id
      (`aria-describedby` for a tooltip, `aria-controls` otherwise); while
      closed it points nowhere. */
  lemma ReferencePointsAtFloatingWhileOpen(open: bool, role: Option<Role>, titleId: Option<string>,
                                           descriptionId: Option<string>, rootId: string)
    ensures var p := UseAria(open, true, role, titleId, descriptionId, rootId);
            var link := if role == Some(Tooltip) then "aria-describedby" else "aria-controls";
            link in p.reference.value && "id" in p.floating.value &&
            (open <==> p.reference.value[link] == p.floating.value["id"])
  {
  }
}
