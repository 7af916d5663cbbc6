/** The translation table of the onboarding page and the way `loadLanguage`
    writes it onto the page (script.js `updateTranslations`,
    `updateElementText`, `updateElementAttribute`).

    Only the key structure of the table is modelled: a language's table is
    flattened to key paths such as "errors.required_fields", and the two list
    sections ("qrcode.instructions.steps", "success.next_steps.steps") are kept
    apart because they are rendered as list markup. */
module Translations {

  import opened Basics

  /** Where a translated string lands: the text of a page element, or one of
      its attributes (the form placeholders). `.feature-card[1] .feature-title`
      stands for the title inside the second feature card. */
  datatype Target = TextOf(selector: string) | AttributeOf(selector: string, attribute: string)

  /** One write of `updateTranslations`: the page target and the key path of
      the string, or of the list of strings, that is written there. */
  datatype Binding =
    | Text(target: Target, key: string)
    | Items(target: Target, key: string)

  /** One language of the table. */
  datatype TranslationSet = TranslationSet(strings: map<string, string>, lists: map<string, seq<string>>)

  /** The translatable part of the page: every target that exists on the page,
      with the text it currently shows. A target outside the map is an element
      that `document.querySelector` does not find. */
  type Page = map<Target, string>

  /** The languages the table defines (script.js:420, 522, 624). */
  const Languages: set<string> := {"pt", "en", "fr"}

  /** Keys the wizard's handlers read directly (script.js:167, 171, 194, 198). */
  const RequiredFieldsKey: string := "errors.required_fields"
  const SetupFailedKey: string := "errors.setup_failed"
  const ConnectionErrorKey: string := "errors.connection_error"
  const CreatingAgentKey: string := "loading.creating_agent"
  const HandlerKeys: set<string> := {RequiredFieldsKey, SetupFailedKey, ConnectionErrorKey, CreatingAgentKey}

  /** Every write `updateTranslations` performs, in its order (script.js:314-399). */
  const Bindings: seq<Binding> := [
    Text(TextOf(".main-title"), "welcome.title"),
    Text(TextOf(".main-subtitle"), "welcome.subtitle"),
    Text(TextOf("#start-button"), "welcome.start_button"),
    Text(TextOf(".welcome-benefits"), "welcome.benefits"),
    Text(TextOf(".feature-card[0] .feature-title"), "welcome.features.quick_setup.title"),
    Text(TextOf(".feature-card[0] .feature-description"), "welcome.features.quick_setup.description"),
    Text(TextOf(".feature-card[1] .feature-title"), "welcome.features.secure.title"),
    Text(TextOf(".feature-card[1] .feature-description"), "welcome.features.secure.description"),
    Text(TextOf(".feature-card[2] .feature-title"), "welcome.features.intelligent.title"),
    Text(TextOf(".feature-card[2] .feature-description"), "welcome.features.intelligent.description"),
    Text(TextOf(".setup-header .step-title"), "setup.title"),
    Text(TextOf(".setup-header .step-subtitle"), "setup.subtitle"),
    Text(TextOf(".setup-card .card-title"), "setup.card_title"),
    Text(TextOf(".setup-card .card-description"), "setup.card_description"),
    Text(TextOf("label[for=\"business_name\"]"), "setup.form.business_name.label"),
    Text(AttributeOf("#business_name", "placeholder"), "setup.form.business_name.placeholder"),
    Text(TextOf("label[for=\"business_description\"]"), "setup.form.business_description.label"),
    Text(AttributeOf("#business_description", "placeholder"), "setup.form.business_description.placeholder"),
    Text(TextOf("label[for=\"business_hours\"]"), "setup.form.business_hours.label"),
    Text(AttributeOf("#business_hours", "placeholder"), "setup.form.business_hours.placeholder"),
    Text(TextOf("label[for=\"contact_info\"]"), "setup.form.contact_info.label"),
    Text(AttributeOf("#contact_info", "placeholder"), "setup.form.contact_info.placeholder"),
    Text(TextOf("label[for=\"knowledge_text\"]"), "setup.form.knowledge_text.label"),
    Text(AttributeOf("#knowledge_text", "placeholder"), "setup.form.knowledge_text.placeholder"),
    Text(TextOf(".form-help"), "setup.form.knowledge_text.help"),
    Text(TextOf("#back-button"), "setup.back_button"),
    Text(TextOf("#submit-button"), "setup.submit_button"),
    Text(TextOf(".qrcode-header .step-title"), "qrcode.title"),
    Text(TextOf(".qrcode-header .step-subtitle"), "qrcode.subtitle"),
    Text(TextOf(".qrcode-card .card-title"), "qrcode.card_title"),
    Text(TextOf(".qrcode-card .card-description"), "qrcode.card_description"),
    Text(TextOf(".instructions-title"), "qrcode.instructions.title"),
    Text(TextOf("#check-connection-button"), "qrcode.check_button"),
    Text(TextOf(".qr-note"), "qrcode.note"),
    Items(TextOf(".instructions-list"), "qrcode.instructions.steps"),
    Text(TextOf(".celebration-title"), "success.title"),
    Text(TextOf(".celebration-subtitle"), "success.subtitle"),
    Text(TextOf(".agent-info-card .card-title"), "success.agent_info.title"),
    Text(TextOf(".info-item .info-label[0]"), "success.agent_info.business_name"),
    Text(TextOf(".info-item .info-label[1]"), "success.agent_info.status"),
    Text(TextOf(".info-item .info-label[2]"), "success.agent_info.ai"),
    Text(TextOf(".next-steps-title"), "success.next_steps.title"),
    Items(TextOf(".next-steps-list"), "success.next_steps.steps"),
    Text(TextOf("#create-another-button"), "success.create_another"),
    Text(TextOf(".support-text"), "success.support")
  ]

  /** The markup a list section becomes: one `<li>` per entry, joined with nothing. */
  function ListMarkup(steps: seq<string>): string {
    if steps == [] then "" else "<li>" + steps[0] + "</li>" + ListMarkup(steps[1..])
  }

  /** The value binding `b` writes under language `t`, if it writes one:
      `updateElementText` and `updateElementAttribute` skip a missing or empty
      string. A missing list, which would throw in the source, is skipped as
      well; a complete table has none. */
  function Written(t: TranslationSet, b: Binding): Option<string> {
    match b
    case Text(_, key) => if key in t.strings && t.strings[key] != "" then Some(t.strings[key]) else None
    case Items(_, key) => if key in t.lists then Some(ListMarkup(t.lists[key])) else None
  }

  /** One `updateElementText` / `updateElementAttribute` call: the element
      must exist and the value must be non-empty. */
  function ApplyBinding(page: Page, t: TranslationSet, b: Binding): (r: Page)
    ensures r.Keys == page.Keys
    ensures forall x :: x in page && x != b.target ==> r[x] == page[x]
    ensures b.target in page ==> r[b.target] == if Written(t, b).Some? then Written(t, b).value else page[b.target]
  {
    if b.target in page && Written(t, b).Some? then page[b.target := Written(t, b).value] else page
  }

  /** `updateTranslations(t)`: the bindings applied in order. */
  function Apply(page: Page, t: TranslationSet, bs: seq<Binding>): (r: Page)
    ensures r.Keys == page.Keys
    decreases |bs|
  {
    if bs == [] then page else Apply(ApplyBinding(page, t, bs[0]), t, bs[1..])
  }

  /** Every target the bindings write to when they write anything. */
  function Targets(bs: seq<Binding>): set<Target> {
    set i | 0 <= i < |bs| :: bs[i].target
  }

  /** What the bindings would write on a page that had every target: the
      last write to a target wins. */
  function Overlay(t: TranslationSet, bs: seq<Binding>): (o: map<Target, string>)
    ensures o.Keys <= Targets(bs)
    decreases |bs|
  {
    if bs == [] then map[]
    else
      var rest := Overlay(t, bs[1..]);
      assert Targets(bs[1..]) <= Targets(bs) by {
        forall x | x in Targets(bs[1..]) ensures x in Targets(bs) {
          var i :| 0 <= i < |bs[1..]| && bs[1..][i].target == x;
          assert bs[i + 1].target == x;
        }
      }
      Single(t, bs[0]) + rest
  }

  /** The write of one binding, as an overlay. */
  function Single(t: TranslationSet, b: Binding): (o: map<Target, string>)
    ensures o.Keys <= {b.target}
  {
    if Written(t, b).Some? then map[b.target := Written(t, b).value] else map[]
  }

  /** The page after painting an overlay onto it: targets the overlay covers
      show its text, the others keep theirs, and no target is added. */
  function Paint(page: Page, o: map<Target, string>): (r: Page)
    ensures r.Keys == page.Keys
  {
    map x | x in page :: if x in o then o[x] else page[x]
  }

  /** The handlers' own keys are there, with text. */
  ghost predicate HasHandlerKeys(t: TranslationSet) {
    forall k :: k in HandlerKeys ==> k in t.strings && t.strings[k] != ""
  }

  /** Every binding in `bs` writes a value under `t`. */
  ghost predicate WritesAll(t: TranslationSet, bs: seq<Binding>) {
    forall i :: 0 <= i < |bs| ==> Written(t, bs[i]).Some?
  }

  /** A language is complete when every binding of the page writes a value
      and the handlers' keys are there. */
  ghost predicate Complete(t: TranslationSet) {
    WritesAll(t, Bindings) && HasHandlerKeys(t)
  }

  /** What the handlers need of the table: the three languages, each with the
      handlers' keys. */
  ghost predicate HandlerReady(table: map<string, TranslationSet>) {
    table.Keys == Languages && forall l :: l in table ==> HasHandlerKeys(table[l])
  }

  /** The table the page ships: the three languages, each complete. */
  ghost predicate WellFormedTable(table: map<string, TranslationSet>) {
    table.Keys == Languages && forall l :: l in table ==> Complete(table[l])
  }

  /** What the wizard needs of a table and a list of writes: the handlers'
      keys, and a value for every write in every language, so that no write
      reaches for a missing section. */
  ghost predicate Fits(table: map<string, TranslationSet>, bs: seq<Binding>) {
    HandlerReady(table) && forall l :: l in table ==> WritesAll(table[l], bs)
  }

  /** The table the page ships fits the page's own writes. */
  lemma WellFormedTableIsReady(table: map<string, TranslationSet>)
    requires WellFormedTable(table)
    ensures Fits(table, Bindings)
  {
  }

  /** Applying the bindings is painting their overlay: this is the whole
      effect of `updateTranslations` on the page. */
  lemma {:induction false} ApplyIsPaint(page: Page, t: TranslationSet, bs: seq<Binding>)
    ensures Apply(page, t, bs) == Paint(page, Overlay(t, bs))
    decreases |bs|
  {
    if bs != [] {
      ApplyIsPaint(ApplyBinding(page, t, bs[0]), t, bs[1..]);
      PaintAfterBinding(page, t, bs[0], Overlay(t, bs[1..]));
    }
  }

  /** One binding applied before an overlay is painted is the same as its
      write placed under that overlay. */
  lemma PaintAfterBinding(page: Page, t: TranslationSet, b: Binding, rest: map<Target, string>)
    ensures Paint(ApplyBinding(page, t, b), rest) == Paint(page, Single(t, b) + rest)
  {
    var lhs := Paint(ApplyBinding(page, t, b), rest);
    var rhs := Paint(page, Single(t, b) + rest);
    forall x | x in page ensures lhs[x] == rhs[x] {
    }
    assert lhs.Keys == rhs.Keys;
  }

  /** Loading the same language twice shows the same page as loading it once. */
  lemma ApplyIdempotent(page: Page, t: TranslationSet, bs: seq<Binding>)
    ensures Apply(Apply(page, t, bs), t, bs) == Apply(page, t, bs)
  {
    var o := Overlay(t, bs);
    ApplyIsPaint(page, t, bs);
    ApplyIsPaint(Apply(page, t, bs), t, bs);
    assert Paint(Paint(page, o), o) == Paint(page, o);
  }

  /** Loading `t` after `u` shows what loading `t` alone shows, provided `t`
      writes every target that `u` writes. */
  lemma ApplyOverrides(page: Page, u: TranslationSet, t: TranslationSet, bs: seq<Binding>)
    requires Overlay(u, bs).Keys <= Overlay(t, bs).Keys
    ensures Apply(Apply(page, u, bs), t, bs) == Apply(page, t, bs)
  {
    var ou, ot := Overlay(u, bs), Overlay(t, bs);
    ApplyIsPaint(page, u, bs);
    ApplyIsPaint(Apply(page, u, bs), t, bs);
    ApplyIsPaint(page, t, bs);
    assert Paint(Paint(page, ou), ot) == Paint(page, ot);
  }

  /** A language in which every binding writes a value writes every target. */
  lemma {:induction false} OverlayCovers(t: TranslationSet, bs: seq<Binding>)
    requires WritesAll(t, bs)
    ensures Overlay(t, bs).Keys == Targets(bs)
    decreases |bs|
  {
    if bs != [] {
      OverlayCovers(t, bs[1..]);
      forall x | x in Targets(bs) ensures x in Overlay(t, bs) {
        var i :| 0 <= i < |bs| && bs[i].target == x;
        if i > 0 {
          assert bs[1..][i - 1].target == x;
        }
      }
    }
  }

  /** Switching from one language to another and back reproduces exactly the
      page the first language rendered, whatever the page showed before,
      when both languages write a value for every binding. */
  lemma SwitchAndBackOver(page: Page, first: TranslationSet, other: TranslationSet, bs: seq<Binding>)
    requires WritesAll(first, bs) && WritesAll(other, bs)
    ensures Apply(Apply(Apply(page, first, bs), other, bs), first, bs) == Apply(page, first, bs)
  {
    OverlayCovers(first, bs);
    OverlayCovers(other, bs);
    ApplyOverrides(Apply(page, first, bs), other, first, bs);
    ApplyIdempotent(page, first, bs);
  }

  /** The page's own round trip, for example "pt" -> "en" -> "pt". */
  lemma SwitchAndBack(page: Page, first: TranslationSet, other: TranslationSet)
    requires Complete(first) && Complete(other)
    ensures Apply(Apply(Apply(page, first, Bindings), other, Bindings), first, Bindings)
         == Apply(page, first, Bindings)
  {
    SwitchAndBackOver(page, first, other, Bindings);
  }

  /** Targets no binding names keep the text the page had. */
  lemma ApplyLeavesOthers(page: Page, t: TranslationSet, bs: seq<Binding>, x: Target)
    requires x in page && x !in Targets(bs)
    ensures Apply(page, t, bs)[x] == page[x]
  {
    ApplyIsPaint(page, t, bs);
  }
}
