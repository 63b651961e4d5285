/** The page's script and the server's expansion show the same questions, exactly on sound pages. */
module RevealTheorems {
  import opened Wrappers
  import opened Fields
  import opened Validation
  import opened RevealScript

  // ---- Names ----------------------------------------------------------------------------------------------

  lemma {:induction false} NameInAll(fields: seq<Field>, i: nat)
    requires i < |fields|
    ensures fields[i].name in AllNames(fields)
    ensures AllNames(fields[i].followUps) <= AllNames(fields)
  {
    if i > 0 { NameInAll(fields[1..], i - 1); }
  }

  lemma {:induction false} MemberInAll(fields: seq<Field>, f: Field)
    requires f in fields
    ensures f.name in AllNames(fields)
  {
    if f != fields[0] { MemberInAll(fields[1..], f); }
  }

  lemma {:induction false} TopNamesDiffer(fields: seq<Field>, i: nat, j: nat)
    requires Distinct(fields) && i < j < |fields|
    ensures fields[i].name != fields[j].name
  {
    if i == 0 { NameInAll(fields[1..], j - 1); } else { TopNamesDiffer(fields[1..], i - 1, j - 1); }
  }

  lemma SameNameSameField(fields: seq<Field>, i: nat, j: nat)
    requires Distinct(fields) && i < |fields| && j < |fields| && fields[i].name == fields[j].name
    ensures i == j
  {
    if i < j { TopNamesDiffer(fields, i, j); } else if j < i { TopNamesDiffer(fields, j, i); }
  }

  lemma {:induction false} FollowNamesDiffer(fields: seq<Field>, i: nat, k: nat, h: Field)
    requires Distinct(fields) && i < |fields| && k < |fields| && h in fields[k].followUps
    ensures h.name != fields[i].name
  {
    MemberInAll(fields[k].followUps, h);
    if i > 0 && k > 0 {
      FollowNamesDiffer(fields[1..], i - 1, k - 1, h);
    } else if k > 0 {
      NameInAll(fields[1..], k - 1);
    } else if i > 0 {
      NameInAll(fields[1..], i - 1);
    }
  }

  // ---- What every run keeps -----------------------------------------------------------------------------------

  predicate Held(f: Field, form: Form) {
    forall v :: v in Posted(form, f.name) ==> !f.disabled && CanPost(f, v)
  }

  predicate TracksField(fields: seq<Field>, p: Page, i: nat)
    requires |p.mounted| == |p.marked| == |fields| && i < |fields|
  {
    && Held(fields[i], p.form)
    && (p.mounted[i] <==> fields[i].followUps != [] && Triggered(fields[i], p.form))
    && (fields[i].required || (p.marked[i] <==> Answered(p.form, fields[i].requiredAfter)))
  }

  predicate FollowUpName(fields: seq<Field>, name: string) {
    exists k, h :: 0 <= k < |fields| && h in fields[k].followUps && h.name == name
  }

  predicate Tracks(fields: seq<Field>, p: Page) {
    && |p.mounted| == |p.marked| == |fields|
    && (forall i :: 0 <= i < |fields| ==> TracksField(fields, p, i))
    && (forall name :: name in p.form ==> name in Names(fields) || FollowUpName(fields, name))
  }

  lemma NonEmptyOfOne(v: string)
    ensures NonEmpty([v]) == if v != "" then [v] else []
  {
    assert [v][1..] == [];
  }

  lemma Untriggered(f: Field, form: Form)
    requires f.kind.CheckboxGroup? && RevealsAlike(f) && f.followUps != [] && !f.disabled && Held(f, form)
    ensures !Triggered(f, form)
  {
    var chosen := NonEmpty(Posted(form, f.name));
    if chosen != [] { assert chosen[0] in chosen; }
  }

  /** After a change the server is triggered exactly if the page has mounted the follow-ups. */
  lemma {:induction false} ChoiceMountsAlike(f: Field, before: Form, after: Form, values: seq<string>, checked: Option<string>, mounted: bool)
    requires TopLevel(f) && RevealsAlike(f) && Enters(f, values, checked) && f.followUps != []
    requires Posted(after, f.name) == values && Held(f, before) && (mounted <==> Triggered(f, before))
    ensures (if Mounts(f, values, checked).Some? then Mounts(f, values, checked).value else mounted) <==> Triggered(f, after)
  {
    if f.kind.CheckboxGroup? {
      Untriggered(f, before);
      Untriggered(f, after);
      if checked.Some? { assert Offers(f, checked.value); }
    } else {
      NonEmptyOfOne(values[0]);
      assert values == [values[0]] && CanPost(f, values[0]);
    }
  }

  lemma SilentIsUnanswered(g: Field, form: Form)
    requires Silent(g) && Held(g, form)
    ensures !Answered(form, Some(g.name))
  {
  }

  /** The form after a top-level change differs at that question and at questions taken away. */
  lemma ElsewhereUnchanged(fields: seq<Field>, p: Page, k: nat, values: seq<string>, checked: Option<string>, name: string)
    requires Legal(fields, p, Change(k, values, checked)) && name != fields[k].name && name !in Names(fields[k].followUps)
    ensures Posted(After(fields, p, Change(k, values, checked)).form, name) == Posted(p.form, name)
    ensures name in After(fields, p, Change(k, values, checked)).form <==> name in p.form
  {
  }

  lemma ChangedHere(fields: seq<Field>, p: Page, k: nat, values: seq<string>, checked: Option<string>)
    requires Shaped(fields) && Legal(fields, p, Change(k, values, checked))
    ensures var form := After(fields, p, Change(k, values, checked)).form;
            fields[k].name in form && form[fields[k].name] == values
  {
    forall h | h in fields[k].followUps ensures h.name != fields[k].name { FollowNamesDiffer(fields, k, k, h); }
  }

  lemma SameAnswers(a: Form, b: Form, group: Option<string>)
    requires group.Some? ==> Posted(a, group.value) == Posted(b, group.value)
    ensures Answered(a, group) <==> Answered(b, group)
  {
  }

  /** A question's group is unaffected by a change elsewhere. */
  lemma {:induction false} GroupUnaffected(fields: seq<Field>, p: Page, k: nat, values: seq<string>, checked: Option<string>, i: nat)
    requires Shaped(fields) && Legal(fields, p, Change(k, values, checked)) && i < |fields|
    requires fields[i].requiredAfter != Some(fields[k].name)
    ensures Answered(After(fields, p, Change(k, values, checked)).form, fields[i].requiredAfter) <==> Answered(p.form, fields[i].requiredAfter)
  {
    assert fields[i] in fields && fields[k] in fields;
    if fields[i].requiredAfter.Some? {
      ElsewhereUnchanged(fields, p, k, values, checked, fields[i].requiredAfter.value);
    }
  }

  lemma {:induction false} MountTracks(fields: seq<Field>, p: Page, k: nat, values: seq<string>, checked: Option<string>, i: nat)
    requires Shaped(fields) && Sound(fields) && Tracks(fields, p) && Legal(fields, p, Change(k, values, checked)) && i < |fields|
    ensures var q := After(fields, p, Change(k, values, checked));
            Held(fields[i], q.form) && (q.mounted[i] <==> fields[i].followUps != [] && Triggered(fields[i], q.form))
  {
    assert TracksField(fields, p, i);
    if i == k {
      ChangedHere(fields, p, k, values, checked);
      assert fields[k] in fields;
      if fields[k].followUps != [] {
        ChoiceMountsAlike(fields[k], p.form, After(fields, p, Change(k, values, checked)).form, values, checked, p.mounted[k]);
      }
    } else {
      if fields[i].name == fields[k].name { SameNameSameField(fields, i, k); }
      forall h | h in fields[k].followUps ensures h.name != fields[i].name { FollowNamesDiffer(fields, i, k, h); }
      ElsewhereUnchanged(fields, p, k, values, checked, fields[i].name);
    }
  }

  /** The group a question is required after was just changed: marked now exactly if answered. */
  lemma {:induction false} GroupTracks(fields: seq<Field>, p: Page, k: nat, values: seq<string>, checked: Option<string>, i: nat)
    requires Shaped(fields) && i < |fields| && Legal(fields, p, Change(k, values, checked)) && !fields[i].required
    requires Follows(fields[i], fields[k].name) && FollowsAlike(fields[i], fields[k]) && Held(fields[k], p.form)
    requires p.marked[i] <==> Answered(p.form, fields[i].requiredAfter)
    ensures var q := After(fields, p, Change(k, values, checked)); q.marked[i] <==> Answered(q.form, fields[i].requiredAfter)
  {
    var g, q := fields[k], After(fields, p, Change(k, values, checked));
    ChangedHere(fields, p, k, values, checked);
    if g.kind.Radio? {
      assert values[0] in Posted(q.form, g.name);
    } else {
      SilentIsUnanswered(g, p.form);
      SilentIsUnanswered(g, q.form);
    }
  }

  lemma {:induction false} MarkTracks(fields: seq<Field>, p: Page, k: nat, values: seq<string>, checked: Option<string>, i: nat)
    requires Shaped(fields) && Sound(fields) && Tracks(fields, p) && Legal(fields, p, Change(k, values, checked)) && i < |fields|
    requires !fields[i].required
    ensures var q := After(fields, p, Change(k, values, checked));
            q.marked[i] <==> Answered(q.form, fields[i].requiredAfter)
  {
    assert TracksField(fields, p, i) && TracksField(fields, p, k);
    if fields[i].requiredAfter != Some(fields[k].name) {
      GroupUnaffected(fields, p, k, values, checked, i);
    } else if fields[k].name != "" {
      assert fields[i] in fields && fields[k] in fields && FollowsAlike(fields[i], fields[k]);
      GroupTracks(fields, p, k, values, checked, i);
    }
  }

  lemma ChangeKeepsNames(fields: seq<Field>, p: Page, k: nat, values: seq<string>, checked: Option<string>)
    requires Tracks(fields, p) && Legal(fields, p, Change(k, values, checked))
    ensures var q := After(fields, p, Change(k, values, checked));
            forall name :: name in q.form ==> name in Names(fields) || FollowUpName(fields, name)
  {
  }

  lemma {:induction false} ChangeKeepsTracks(fields: seq<Field>, p: Page, k: nat, values: seq<string>, checked: Option<string>)
    requires Shaped(fields) && Sound(fields) && Tracks(fields, p) && Legal(fields, p, Change(k, values, checked))
    ensures Tracks(fields, After(fields, p, Change(k, values, checked)))
  {
    var q := After(fields, p, Change(k, values, checked));
    forall i | 0 <= i < |fields| ensures TracksField(fields, q, i) {
      MountTracks(fields, p, k, values, checked, i);
      if !fields[i].required { MarkTracks(fields, p, k, values, checked, i); }
    }
    ChangeKeepsNames(fields, p, k, values, checked);
  }

  lemma {:induction false} InsideKeepsField(fields: seq<Field>, p: Page, e: Event, i: nat)
    requires Shaped(fields) && Tracks(fields, p) && Legal(fields, p, e) && e.ChangeInside? && i < |fields|
    ensures TracksField(fields, After(fields, p, e), i)
  {
    var h, form := fields[e.k].followUps[e.j], After(fields, p, e).form;
    assert TracksField(fields, p, i);
    FollowNamesDiffer(fields, i, e.k, h);
    assert fields[i] in fields && fields[e.k] in fields && fields[i].requiredAfter != Some(h.name);
    SameAnswers(p.form, form, fields[i].requiredAfter);
    assert Posted(form, fields[i].name) == Posted(p.form, fields[i].name);
  }

  lemma {:induction false} NextKeepsTracks(fields: seq<Field>, p: Page, e: Event)
    requires Shaped(fields) && Sound(fields) && Tracks(fields, p)
    ensures Tracks(fields, Next(fields, p, e))
  {
    if Legal(fields, p, e) {
      match e
      case Change(k, values, checked) => ChangeKeepsTracks(fields, p, k, values, checked);
      case ChangeInside(k, j, _, _) =>
        forall i | 0 <= i < |fields| ensures TracksField(fields, After(fields, p, e), i) {
          InsideKeepsField(fields, p, e, i);
        }
        assert fields[k].followUps[j] in fields[k].followUps;
    }
  }

  lemma {:induction false} RunKeepsTracks(fields: seq<Field>, events: seq<Event>)
    requires Shaped(fields) && Sound(fields)
    ensures Tracks(fields, Run(fields, events))
  {
    if events == [] {
      forall i | 0 <= i < |fields| ensures TracksField(fields, Fresh(fields), i) {}
    } else {
      var n := |events| - 1;
      RunKeepsTracks(fields, events[..n]);
      NextKeepsTracks(fields, Run(fields, events[..n]), events[n]);
    }
  }

  // ---- Tracking pages agree with the server -------------------------------------------------------------------------

  lemma {:induction false} PlainIsRevealedAsIs(fields: seq<Field>, form: Form)
    requires forall f :: f in fields ==> Plain(f)
    ensures Revealed(fields, form) == fields
  {
    if fields != [] {
      assert Plain(fields[0]);
      PlainIsRevealedAsIs(fields[1..], form);
      assert Revealed(fields[0].followUps, form) == [];
      assert [fields[0]] + fields[1..] == fields;
    }
  }

  lemma ShownIsMarked(f: Field, form: Form, marked: bool)
    requires f.disabledBy.None? && (f.required || (marked <==> Answered(form, f.requiredAfter)))
    ensures Shown(f, form) == f.(required := f.required || marked)
  {
  }

  lemma {:induction false} TrackingAgrees(fields: seq<Field>, mounted: seq<bool>, marked: seq<bool>, form: Form)
    requires |mounted| == |marked| == |fields|
    requires forall f :: f in fields ==> TopLevel(f)
    requires forall i :: 0 <= i < |fields| ==>
               && (mounted[i] <==> fields[i].followUps != [] && Triggered(fields[i], form))
               && (fields[i].required || (marked[i] <==> Answered(form, fields[i].requiredAfter)))
    ensures Visible(fields, mounted, marked) == Revealed(fields, form)
  {
    if fields != [] {
      assert TopLevel(fields[0]);
      ShownIsMarked(fields[0], form, marked[0]);
      PlainIsRevealedAsIs(fields[0].followUps, form);
      forall i | 0 <= i < |fields| - 1
        ensures fields[1..][i] == fields[i + 1] && mounted[1..][i] == mounted[i + 1] && marked[1..][i] == marked[i + 1] {}
      TrackingAgrees(fields[1..], mounted[1..], marked[1..], form);
    }
  }

  /** On a sound page, after any changes, the mounted follow-ups and the required marks are what the server computes. */
  lemma {:induction false} SoundPagesAgree(fields: seq<Field>, events: seq<Event>)
    requires Shaped(fields) && Sound(fields)
    ensures Agrees(fields, Run(fields, events))
  {
    RunKeepsTracks(fields, events);
    var p := Run(fields, events);
    forall i | 0 <= i < |fields|
      ensures (p.mounted[i] <==> fields[i].followUps != [] && Triggered(fields[i], p.form))
              && (fields[i].required || (p.marked[i] <==> Answered(p.form, fields[i].requiredAfter)))
    {
      assert TracksField(fields, p, i);
    }
    TrackingAgrees(fields, p.mounted, p.marked, p.form);
  }

  // ---- Other pages disagree ---------------------------------------------------------------------------

  lemma {:induction false} MountedIsVisible(fields: seq<Field>, mounted: seq<bool>, marked: seq<bool>, k: nat)
    requires |mounted| == |marked| == |fields| && k < |fields|
    ensures fields[k].(required := fields[k].required || marked[k]) in Visible(fields, mounted, marked)
    ensures mounted[k] ==> forall h :: h in fields[k].followUps ==> h in Visible(fields, mounted, marked)
  {
    if k > 0 { MountedIsVisible(fields[1..], mounted[1..], marked[1..], k - 1); }
  }

  lemma {:induction false} FieldIsWithin(fields: seq<Field>, k: nat)
    requires k < |fields|
    ensures Within(fields[k], fields)
  {
    if k > 0 { FieldIsWithin(fields[1..], k - 1); }
  }

  lemma WhereShown(fields: seq<Field>, form: Form, g: Field)
    requires g in Revealed(fields, form)
    ensures fields != []
    ensures || g == Shown(fields[0], form) || g.name in AllNames(fields[0].followUps)
            || (g in Revealed(fields[1..], form) && g.name in AllNames(fields[1..]))
  {
    RevealedWithinAll(fields[0].followUps, form);
    RevealedWithinAll(fields[1..], form);
    assert g.name in Names([g]);
    if g in Revealed(fields[1..], form) { assert g.name in Names(Revealed(fields[1..], form)); }
    if g in Revealed(fields[0].followUps, form) { assert g.name in Names(Revealed(fields[0].followUps, form)); }
  }

  /** The only shown question of that name. */
  lemma {:induction false} ShownOnce(fields: seq<Field>, form: Form, i: nat, g: Field)
    requires Distinct(fields) && i < |fields| && g in Revealed(fields, form) && g.name == fields[i].name
    ensures g == Shown(fields[i], form)
  {
    WhereShown(fields, form, g);
    if i > 0 {
      NameInAll(fields[1..], i - 1);
      ShownOnce(fields[1..], form, i - 1, g);
    }
  }

  lemma {:induction false} FirstChange(fields: seq<Field>, k: nat, values: seq<string>, checked: Option<string>)
    requires k < |fields| && Enters(fields[k], values, checked)
    ensures var p := Run(fields, [Change(k, values, checked)]);
            && Posted(p.form, fields[k].name) == values
            && (p.mounted[k] <==> fields[k].followUps != [] && Mounts(fields[k], values, checked) == Some(true))
            && forall i :: 0 <= i < |fields| ==> (p.marked[i] <==> checked.Some? && Markable(fields[i]) && Follows(fields[i], fields[k].name))
  {
    assert [Change(k, values, checked)][..0] == [];
    assert Run(fields, []) == Fresh(fields);
  }

  /** A box is checked and unchecked: its follow-ups and its marks stay. */
  lemma {:induction false} CheckedAndUnchecked(fields: seq<Field>, k: nat, v: string) returns (events: seq<Event>)
    requires k < |fields| && !fields[k].disabled && CanPost(fields[k], v) && (fields[k].kind.CheckboxGroup? || fields[k].kind.Checkbox?)
    ensures var p := Run(fields, events);
            && Posted(p.form, fields[k].name) == []
            && (p.mounted[k] <==> fields[k].followUps != [] && Triggers(fields[k], v))
            && forall i :: 0 <= i < |fields| ==> (p.marked[i] <==> Markable(fields[i]) && Follows(fields[i], fields[k].name))
  {
    var check, uncheck := Change(k, [v], Some(v)), Change(k, [], None);
    FirstChange(fields, k, [v], Some(v));
    events := [check] + [uncheck];
    assert events[..1] == [check];
  }

  lemma MountedUntriggeredDisagrees(fields: seq<Field>, p: Page, k: nat)
    requires Distinct(fields) && |p.mounted| == |p.marked| == |fields| && k < |fields|
    requires p.mounted[k] && fields[k].followUps != [] && !Triggered(fields[k], p.form)
    ensures !Agrees(fields, p)
  {
    var f, h := fields[k], fields[k].followUps[0];
    MemberInAll(f.followUps, h);
    FieldIsWithin(fields, k);
    UntriggeredStaysHidden(fields, p.form, f, h.name);
    MountedIsVisible(fields, p.mounted, p.marked, k);
    assert h in Visible(fields, p.mounted, p.marked) && h !in Revealed(fields, p.form);
  }

  lemma MarkedOtherwiseDisagrees(fields: seq<Field>, p: Page, i: nat)
    requires Distinct(fields) && |p.mounted| == |p.marked| == |fields| && i < |fields|
    requires (fields[i].required || p.marked[i]) != Shown(fields[i], p.form).required
    ensures !Agrees(fields, p)
  {
    var seen := fields[i].(required := fields[i].required || p.marked[i]);
    MountedIsVisible(fields, p.mounted, p.marked, i);
    if seen in Revealed(fields, p.form) { ShownOnce(fields, p.form, i, seen); }
  }

  /** A value a question can post that is not empty. */
  function Spoken(g: Field): (v: string)
    requires !Silent(g)
    ensures v != "" && CanPost(g, v)
  {
    match g.kind
    case Checkbox => "yes"
    case Radio => FirstValue(g.options, true)
    case CheckboxGroup => FirstValue(g.options, true)
    case Select => FirstValue(g.options, false)
    case MultiSelect => FirstValue(g.options, false)
    case ReactMulti => FirstValue(g.options, false)
    case Widget => if g.options == [] then "x" else FirstValue(g.options, false)
    case _ => "x"
  }

  /** The first value that is not empty, of an enabled option or of any. */
  function FirstValue(options: seq<Choice>, any: bool): (v: string)
    requires exists i :: 0 <= i < |options| && (any || !options[i].disabled) && options[i].value != ""
    ensures v != "" && exists i :: 0 <= i < |options| && options[i].value == v && (any || !options[i].disabled)
  {
    if (any || !options[0].disabled) && options[0].value != "" then options[0].value
    else
      assert exists i :: 0 <= i < |options[1..]| && (any || !options[1..][i].disabled) && options[1..][i].value != "" by {
        var i :| 0 <= i < |options| && (any || !options[i].disabled) && options[i].value != "";
        assert options[1..][i - 1] == options[i];
      }
      var v := FirstValue(options[1..], any);
      assert exists i :: 0 <= i < |options| && options[i].value == v && (any || !options[i].disabled) by {
        var i :| 0 <= i < |options[1..]| && options[1..][i].value == v && (any || !options[1..][i].disabled);
        assert options[i + 1] == options[1..][i];
      }
      v
  }

  // ---- Follow-ups amiss --------------------------------------------------------------------------------------------

  /** A radio or a select mounts by a value that triggers nothing on the server. */
  function MisleadingChoice(f: Field): (v: string)
    requires TopLevel(f) && !RevealsAlike(f) && !f.kind.CheckboxGroup?
    ensures CanPost(f, v) && Triggers(f, v) && (f.kind.Select? ==> v != "") && (v == "" || f.trigger == Some(""))
  {
    if f.kind.Select? then FirstValue(f.options, false)
    else if f.trigger == Some("") then f.options[0].value
    else ""
  }

  lemma NotTriggeredBy(f: Field, form: Form, v: string)
    requires Posted(form, f.name) == [v] && (v == "" || f.trigger == Some(""))
    ensures !Triggered(f, form)
  {
    NonEmptyOfOne(v);
  }

  lemma {:induction false} MountsAmiss(fields: seq<Field>, k: nat)
    requires Shaped(fields) && k < |fields| && !RevealsAlike(fields[k])
    ensures exists events :: !Agrees(fields, Run(fields, events))
  {
    var f := fields[k];
    assert f in fields;
    if f.kind.CheckboxGroup? {
      var v := if On(f) != "" then On(f) else f.options[0].value;
      assert Offers(f, f.options[0].value);
      var events := CheckedAndUnchecked(fields, k, v);
      MountedUntriggeredDisagrees(fields, Run(fields, events), k);
    } else {
      var v := MisleadingChoice(f);
      var checked := if f.kind.Radio? then Some(v) else None;
      FirstChange(fields, k, [v], checked);
      NotTriggeredBy(f, Run(fields, [Change(k, [v], checked)]).form, v);
      MountedUntriggeredDisagrees(fields, Run(fields, [Change(k, [v], checked)]), k);
    }
  }

  // ---- Marks amiss -------------------------------------------------------------------------------------------------

  lemma {:induction false} MarkDisagrees(fields: seq<Field>, p: Page, i: nat, name: string)
    requires Distinct(fields) && |p.mounted| == |p.marked| == |fields| && i < |fields|
    requires !fields[i].required && fields[i].disabledBy.None? && Follows(fields[i], name)
    requires p.marked[i] <==> forall v :: v in Posted(p.form, name) ==> v == ""
    ensures !Agrees(fields, p)
  {
    assert Shown(fields[i], p.form).required <==> Answered(p.form, Some(name));
    MarkedOtherwiseDisagrees(fields, p, i);
  }

  /** The question answered by one value: by a checked radio or box, or by typing or selecting. */
  lemma {:induction false} AnswerAmiss(fields: seq<Field>, i: nat, j: nat, v: string, checked: Option<string>)
    requires Distinct(fields) && i < |fields| && j < |fields| && fields[i].disabledBy.None?
    requires !fields[i].required && Follows(fields[i], fields[j].name)
    requires Enters(fields[j], [v], checked) && (checked.Some? && Markable(fields[i]) <==> v == "")
    ensures !Agrees(fields, Run(fields, [Change(j, [v], checked)]))
  {
    FirstChange(fields, j, [v], checked);
    assert v in [v];
    MarkDisagrees(fields, Run(fields, [Change(j, [v], checked)]), i, fields[j].name);
  }

  /** A group the script marks by mistake, or keeps marked. */
  lemma {:induction false} MarkAmiss(fields: seq<Field>, i: nat, j: nat)
    requires Shaped(fields) && i < |fields| && j < |fields| && !FollowsAlike(fields[i], fields[j])
    requires Markable(fields[i]) && (fields[j].kind.Radio? || fields[j].kind.CheckboxGroup? || fields[j].kind.Checkbox?)
    ensures exists events :: !Agrees(fields, Run(fields, events))
  {
    var g := fields[j];
    assert TopLevel(fields[i]);
    if g.kind.Radio? {
      AnswerAmiss(fields, i, j, "", Some(""));
    } else {
      var v := if g.kind.Checkbox? then "yes" else g.options[0].value;
      assert g.kind.CheckboxGroup? ==> Offers(g, v);
      var events := CheckedAndUnchecked(fields, j, v);
      MarkDisagrees(fields, Run(fields, events), i, g.name);
    }
  }

  lemma {:induction false} MarksAmiss(fields: seq<Field>, i: nat, j: nat)
    requires Shaped(fields) && i < |fields| && j < |fields| && !FollowsAlike(fields[i], fields[j])
    ensures exists events :: !Agrees(fields, Run(fields, events))
  {
    var g := fields[j];
    var checks := g.kind.Radio? || g.kind.CheckboxGroup? || g.kind.Checkbox?;
    assert TopLevel(fields[i]);
    if Markable(fields[i]) && checks {
      MarkAmiss(fields, i, j);
    } else {
      var v := Spoken(g);
      AnswerAmiss(fields, i, j, v, if checks then Some(v) else None);
    }
  }

  /** Page and server agree after every sequence of changes exactly if the page is sound. */
  lemma {:induction false} PagesAgreeExactly(fields: seq<Field>)
    requires Shaped(fields)
    ensures Sound(fields) <==> forall events :: Agrees(fields, Run(fields, events))
  {
    if Sound(fields) {
      forall events ensures Agrees(fields, Run(fields, events)) { SoundPagesAgree(fields, events); }
    } else if k :| 0 <= k < |fields| && !RevealsAlike(fields[k]) {
      MountsAmiss(fields, k);
    } else {
      var f, g :| f in fields && g in fields && !FollowsAlike(f, g);
      var i: nat :| i < |fields| && fields[i] == f;
      var j: nat :| j < |fields| && fields[j] == g;
      MarksAmiss(fields, i, j);
    }
  }
}
