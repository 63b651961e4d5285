/** `REVEAL_JS` of `scripts/mock_ats.py`: the page's own, event-driven version of `Revealed`.
    It mounts and unmounts follow-up questions and marks groups required as options change. */
module RevealScript {
  import opened Wrappers
  import opened Fields
  import opened Validation

  /** A loaded page: what it would post, whose follow-ups are mounted and which groups are marked. */
  datatype Page = Page(form: Form, mounted: seq<bool>, marked: seq<bool>)

  /** A change event of a top-level question, or of one among mounted follow-ups: the values it posts
      from then on, and the value of the radio or box that was just checked, if one was. */
  datatype Event =
    | Change(k: nat, values: seq<string>, checked: Option<string>)
    | ChangeInside(k: nat, j: nat, values: seq<string>, checked: Option<string>)

  // ---- The page's shape -------------------------------------------------------------------------------

  predicate Offers(f: Field, v: string) {
    exists i :: 0 <= i < |f.options| && f.options[i].value == v
  }

  /** The values an enabled question can post: a select has its empty placeholder, a file none, and a
      text control whatever is typed, unless it offers options or has no name. */
  predicate CanPost(f: Field, v: string) {
    match f.kind
    case Radio => Offers(f, v)
    case CheckboxGroup => Offers(f, v)
    case Checkbox => v == "yes"
    case Select => v == "" || Listed(f, v)
    case MultiSelect => Listed(f, v)
    case ReactMulti => Listed(f, v)
    case Widget => !f.unnamed && (f.options != [] ==> v == "" || Listed(f, v))
    case _ => !f.TakesFile() && !f.unnamed
  }

  /** One change of the question by the user. Boxes are checked and unchecked, and any of them may be
      checked afterwards; a radio is only checked. */
  predicate Enters(f: Field, values: seq<string>, checked: Option<string>) {
    && !f.disabled
    && (forall v :: v in values ==> CanPost(f, v))
    && (match f.kind
        case Radio => |values| == 1 && checked == Some(values[0])
        case CheckboxGroup => checked.Some? ==> checked.value in values
        case Checkbox => (checked == None && values == []) || (checked == Some("yes") && values == ["yes"])
        case Select => |values| == 1 && checked.None?
        case MultiSelect => checked.None?
        case ReactMulti => checked.None?
        case _ => !f.TakesFile() && checked.None? && |values| == if f.unnamed then 0 else 1)
  }

  predicate Plain(f: Field) {
    f.followUps == [] && f.requiredAfter.None? && f.disabledBy.None?
  }

  /** A top-level question: only radios, checkbox groups and selects have follow-ups, one level deep. */
  predicate TopLevel(f: Field) {
    && (f.followUps != [] ==> f.kind.Radio? || f.kind.CheckboxGroup? || f.kind.Select?)
    && (forall g :: g in f.followUps ==> Plain(g))
    && f.disabledBy.None?
  }

  /** No group is required after a follow-up question. */
  predicate Shaped(fields: seq<Field>) {
    && Distinct(fields)
    && (forall f :: f in fields ==> TopLevel(f))
    && (forall f, g, h :: f in fields && g in fields && h in g.followUps ==> f.requiredAfter != Some(h.name))
  }

  // ---- What the script does ------------------------------------------------------------------------------

  /** `data-reveals-on`: absent, and so empty, for no trigger and for an empty one. */
  function On(f: Field): string {
    if f.trigger.Some? then f.trigger.value else ""
  }

  predicate Triggers(f: Field, v: string) { On(f) == "" || v == On(f) }

  /** Whether the change mounts or removes the follow-ups: an unchecked box does neither. */
  function Mounts(f: Field, values: seq<string>, checked: Option<string>): Option<bool> {
    if f.kind.Select? then Some(First(values) != "" && Triggers(f, First(values)))
    else if checked.Some? then Some(Triggers(f, checked.value))
    else None
  }

  /** The question is required once the question of this name is answered. */
  predicate Follows(f: Field, name: string) {
    f.requiredAfter == Some(name) && name != ""
  }

  /** `data-required-after` is rendered only on radio and checkbox groups: the script marks no other question. */
  predicate Markable(f: Field) {
    f.kind.Radio? || f.kind.CheckboxGroup?
  }

  predicate Legal(fields: seq<Field>, p: Page, e: Event) {
    && |p.mounted| == |p.marked| == |fields|
    && e.k < |fields|
    && (match e
        case Change(k, values, checked) => Enters(fields[k], values, checked)
        case ChangeInside(k, j, values, checked) => p.mounted[k] && j < |fields[k].followUps| && Enters(fields[k].followUps[j], values, checked))
  }

  /** The page after one change event; removed follow-ups take their answers with them. */
  function After(fields: seq<Field>, p: Page, e: Event): Page
    requires Legal(fields, p, e)
  {
    match e
    case Change(k, values, checked) =>
      var f := fields[k];
      var form, mounts := p.form[f.name := values], Mounts(f, values, checked);
      Page(
        if f.followUps != [] && mounts == Some(false) && p.mounted[k] then form - Names(f.followUps) else form,
        if f.followUps != [] && mounts.Some? then p.mounted[k := mounts.value] else p.mounted,
        seq(|fields|, i requires 0 <= i < |fields| => p.marked[i] || (checked.Some? && Markable(fields[i]) && Follows(fields[i], f.name))))
    case ChangeInside(k, j, values, checked) => p.(form := p.form[fields[k].followUps[j].name := values])
  }

  function Fresh(fields: seq<Field>): Page {
    Page(map[], seq(|fields|, _ => false), seq(|fields|, _ => false))
  }

  /** What the user sees: each question, required once marked, with its mounted follow-ups. */
  function Visible(fields: seq<Field>, mounted: seq<bool>, marked: seq<bool>): seq<Field>
    requires |mounted| == |marked| == |fields|
  {
    if fields == [] then []
    else
      [fields[0].(required := fields[0].required || marked[0])]
      + (if mounted[0] then fields[0].followUps else [])
      + Visible(fields[1..], mounted[1..], marked[1..])
  }

  ghost predicate Agrees(fields: seq<Field>, p: Page)
    requires |p.mounted| == |p.marked| == |fields|
  {
    Visible(fields, p.mounted, p.marked) == Revealed(fields, p.form)
  }

  // ---- The script --------------------------------------------------------------------------------------------

  class Script {
    const fields: seq<Field>
    var form: Form
    var mounted: seq<bool>
    var marked: seq<bool>

    ghost function Shows(): Page
      reads this
    {
      Page(form, mounted, marked)
    }

    constructor (fields: seq<Field>)
      ensures this.fields == fields && Shows() == Fresh(fields)
    {
      this.fields := fields;
      form := map[];
      mounted, marked := seq(|fields|, _ => false), seq(|fields|, _ => false);
    }

    method Mount(k: nat)
      requires k < |mounted|
      modifies this`mounted
      ensures mounted == old(mounted)[k := true]
    {
      if mounted[k] { return; }
      mounted := mounted[k := true];
    }

    method Unmount(k: nat)
      requires k < |mounted| == |fields|
      modifies this`mounted, this`form
      ensures mounted == old(mounted)[k := false]
      ensures form == if old(mounted)[k] then old(form) - Names(fields[k].followUps) else old(form)
    {
      if mounted[k] {
        form := form - Names(fields[k].followUps);
      }
      mounted := mounted[k := false];
    }

    /** The change listeners of a top-level question. */
    method OnChange(k: nat, values: seq<string>, checked: Option<string>)
      requires Legal(fields, Shows(), Change(k, values, checked))
      modifies this
      ensures Shows() == After(fields, old(Shows()), Change(k, values, checked))
    {
      var f := fields[k];
      form := form[f.name := values];
      if f.followUps != [] {
        if f.kind.Select? {
          if First(values) != "" && Triggers(f, First(values)) { Mount(k); } else { Unmount(k); }
        } else if checked.Some? {
          if Triggers(f, checked.value) { Mount(k); } else { Unmount(k); }
        }
      }
      if checked.Some? { MarkFollowers(f.name); }
      assert marked == After(fields, old(Shows()), Change(k, values, checked)).marked;
    }

    method MarkFollowers(name: string)
      requires |marked| == |fields|
      modifies this`marked
      ensures |marked| == |fields|
      ensures forall i :: 0 <= i < |fields| ==> marked[i] == (old(marked)[i] || (Markable(fields[i]) && Follows(fields[i], name)))
    {
      for i := 0 to |fields|
        invariant |marked| == |fields|
        invariant forall j :: 0 <= j < i ==> marked[j] == (old(marked)[j] || (Markable(fields[j]) && Follows(fields[j], name)))
        invariant forall j :: i <= j < |fields| ==> marked[j] == old(marked)[j]
      {
        if Markable(fields[i]) && Follows(fields[i], name) && !marked[i] { marked := marked[i := true]; }
      }
    }
  }

  // ---- Runs ----------------------------------------------------------------------------------------------------

  /** A page on which a change that nobody can make does not happen. */
  function Next(fields: seq<Field>, p: Page, e: Event): Page {
    if Legal(fields, p, e) then After(fields, p, e) else p
  }

  function Run(fields: seq<Field>, events: seq<Event>): (p: Page)
    ensures |p.mounted| == |p.marked| == |fields|
  {
    if events == [] then Fresh(fields)
    else var n := |events| - 1; Next(fields, Run(fields, events[..n]), events[n])
  }

  // ---- When the page and the server agree ---------------------------------------------------------------------

  /** The trigger is not the empty string (which the page cannot tell from none) where a choice could
      show it, a radio group revealing on any option offers none that posts an empty value, and a checkbox
      group has no box that reveals, since the page does not remove what an unchecked box revealed. */
  predicate RevealsAlike(f: Field) {
    f.followUps == [] || f.disabled
    || (match f.kind
        case Radio =>
          if f.trigger == Some("") then f.options == []
          else f.trigger.None? ==> !Offers(f, "")
        case CheckboxGroup => f.options == [] || (On(f) != "" && !Offers(f, On(f)))
        case _ => f.trigger == Some("") ==> forall i :: 0 <= i < |f.options| && !f.options[i].disabled ==> f.options[i].value == "")
  }

  /** A question that can post nothing but empty values. */
  predicate Silent(g: Field) {
    g.disabled
    || (match g.kind
        case Radio => forall i :: 0 <= i < |g.options| ==> g.options[i].value == ""
        case CheckboxGroup => forall i :: 0 <= i < |g.options| ==> g.options[i].value == ""
        case Checkbox => false
        case Select => forall i :: 0 <= i < |g.options| && !g.options[i].disabled ==> g.options[i].value == ""
        case MultiSelect => forall i :: 0 <= i < |g.options| && !g.options[i].disabled ==> g.options[i].value == ""
        case ReactMulti => forall i :: 0 <= i < |g.options| && !g.options[i].disabled ==> g.options[i].value == ""
        case Widget => g.unnamed || (g.options != [] && forall i :: 0 <= i < |g.options| && !g.options[i].disabled ==> g.options[i].value == "")
        case _ => g.TakesFile() || g.unnamed)
  }

  /** What a group can be required after: a radio group with no empty option. The page marks for good what
      a box marks once, and nothing for a control that cannot be checked. */
  predicate Leads(g: Field) {
    g.disabled
    || (match g.kind
        case Radio => !Offers(g, "")
        case CheckboxGroup => g.options == []
        case _ => Silent(g))
  }

  /** A question follows only what the script can follow: a question it cannot mark follows nothing
      that can be answered. */
  predicate FollowsAlike(f: Field, g: Field) {
    !f.required && Follows(f, g.name) ==> if Markable(f) then Leads(g) else Silent(g)
  }

  predicate Sound(fields: seq<Field>) {
    && (forall f :: f in fields ==> RevealsAlike(f))
    && (forall f, g :: f in fields && g in fields ==> FollowsAlike(f, g))
  }

  // ---- What the page posts ------------------------------------------------------------------------------

  /** The name is that of a question the page shows: a top-level one, or a mounted follow-up. */
  predicate OnPage(fields: seq<Field>, p: Page, name: string)
    requires |p.mounted| == |fields|
  {
    exists k :: 0 <= k < |fields| && (name == fields[k].name || (p.mounted[k] && name in Names(fields[k].followUps)))
  }

  lemma {:induction false} StepPostsOnPage(fields: seq<Field>, p: Page, e: Event, name: string)
    requires |p.mounted| == |p.marked| == |fields| && Legal(fields, p, e)
    requires name in p.form ==> OnPage(fields, p, name)
    requires name in After(fields, p, e).form
    ensures OnPage(fields, After(fields, p, e), name)
  {
    var t := After(fields, p, e);
    match e
    case Change(k, values, checked) =>
      if name == fields[k].name {
        assert OnPage(fields, t, name);
      } else {
        var j :| 0 <= j < |fields| && (name == fields[j].name || (p.mounted[j] && name in Names(fields[j].followUps)));
        assert name == fields[j].name || (t.mounted[j] && name in Names(fields[j].followUps));
      }
    case ChangeInside(k, j, values, checked) =>
      if name == fields[k].followUps[j].name {
        assert t.mounted[k] && name in Names(fields[k].followUps);
      } else {
        var i :| 0 <= i < |fields| && (name == fields[i].name || (p.mounted[i] && name in Names(fields[i].followUps)));
        assert name == fields[i].name || (t.mounted[i] && name in Names(fields[i].followUps));
      }
  }

  /** Whatever the user does, on any page, it posts nothing but answers to questions that it shows: removed
      follow-ups take their answers with them. */
  lemma {:induction false} PostsOnlyShown(fields: seq<Field>, events: seq<Event>, name: string)
    requires name in Run(fields, events).form
    ensures OnPage(fields, Run(fields, events), name)
  {
    var n := |events| - 1;
    var p := Run(fields, events[..n]);
    if name in p.form { PostsOnlyShown(fields, events[..n], name); }
    if Legal(fields, p, events[n]) { StepPostsOnPage(fields, p, events[n], name); }
  }
}
