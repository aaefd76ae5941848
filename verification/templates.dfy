/**
 * The template registry: the eight template names in declaration order, the
 * lookup `getTemplate` performs with its fallback to `basic`, and the list of
 * names the templates route reports.
 *
 * The registry is an object literal in the service, so a lookup of a name such
 * as "constructor" finds an `Object.prototype` member; here only the eight
 * declared names are keys.
 */
module Templates {
  import opened Js
  import opened OgTypes
  import opened Layout
  import EventTemplate
  import ChangelogTemplate
  import AnnouncementTemplate

  datatype TemplateId =
    | Basic | Blog | Product | Social | Event | Changelog | Testimonial | Announcement

  /** The registry's keys and the templates they name, in declaration order. */
  const Registry: seq<(string, TemplateId)> := [
    ("basic", Basic),
    ("blog", Blog),
    ("product", Product),
    ("social", Social),
    ("event", Event),
    ("changelog", Changelog),
    ("testimonial", Testimonial),
    ("announcement", Announcement)
  ]

  /** The key a template is registered under. */
  function NameOf(id: TemplateId): string {
    match id
    case Basic => "basic"
    case Blog => "blog"
    case Product => "product"
    case Social => "social"
    case Event => "event"
    case Changelog => "changelog"
    case Testimonial => "testimonial"
    case Announcement => "announcement"
  }

  /** The first entry of `reg` registered under `name`, if any. */
  function Find(reg: seq<(string, TemplateId)>, name: string): (r: Option<TemplateId>)
    ensures r.None? <==> forall i | 0 <= i < |reg| :: reg[i].0 != name
    ensures r.Some? ==> exists i | 0 <= i < |reg| :: reg[i] == (name, r.value)
  {
    if |reg| == 0 then None
    else if reg[0].0 == name then Some(reg[0].1)
    else
      var r := Find(reg[1..], name);
      assert forall i | 1 <= i < |reg| :: reg[i] == reg[1..][i - 1];
      r
  }

  /** `templates[name] || templates.basic`: the template a name selects. */
  function Resolve(name: string): (id: TemplateId)
    ensures name in ListTemplates() ==> NameOf(id) == name
    ensures name !in ListTemplates() ==> id == Basic
  {
    var r := Find(Registry, name);
    RegistryNames();
    if r.Some? then r.value else Basic
  }

  /** `Object.keys(templates)`: the registered names in declaration order. */
  function ListTemplates(): (names: seq<string>)
    ensures |names| == |Registry|
    ensures forall i | 0 <= i < |Registry| :: names[i] == Registry[i].0
  {
    seq(|Registry|, i requires 0 <= i < |Registry| => Registry[i].0)
  }

  /** Every entry of the registry is keyed by the name of its own template. */
  lemma RegistryNames()
    ensures forall i | 0 <= i < |Registry| :: Registry[i].0 == NameOf(Registry[i].1)
  {
  }

  /** The listed names are exactly the eight template names, in declaration order. */
  lemma {:induction false} ListedNames()
    ensures ListTemplates() ==
      ["basic", "blog", "product", "social", "event", "changelog", "testimonial", "announcement"]
  {
    var names := ListTemplates();
    assert names[0] == "basic" && names[1] == "blog" && names[2] == "product";
    assert names[3] == "social" && names[4] == "event" && names[5] == "changelog";
    assert names[6] == "testimonial" && names[7] == "announcement";
  }

  /** No name is listed twice, and every template is listed. */
  lemma {:induction false} ListedNamesDistinct()
    ensures forall i, j | 0 <= i < j < |ListTemplates()| :: ListTemplates()[i] != ListTemplates()[j]
    ensures forall id: TemplateId :: NameOf(id) in ListTemplates()
  {
    ListedNames();
  }

  /** Looking up a template's own name selects that template: no listed name falls back. */
  lemma {:induction false} ResolveNameOf(id: TemplateId)
    ensures Resolve(NameOf(id)) == id
  {
    ListedNamesDistinct();
    var id' := Resolve(NameOf(id));
    assert NameOf(id') == NameOf(id);
    NameOfInjective(id, id');
  }

  /** Distinct templates are registered under distinct names. */
  lemma NameOfInjective(a: TemplateId, b: TemplateId)
    ensures NameOf(a) == NameOf(b) ==> a == b
  {
    if NameOf(a) == NameOf(b) {
      assert |NameOf(a)| == |NameOf(b)|;
      assert NameOf(a)[0] == NameOf(b)[0];
      assert NameOf(a)[1] == NameOf(b)[1];
    }
  }

  /** The templates whose source is not part of this model. */
  predicate Unshown(id: TemplateId) {
    id in {Basic, Blog, Product, Social, Testimonial}
  }

  /** The tree template `id` draws; the five templates not part of this model come from `unshown`. */
  function Draw(id: TemplateId, p: Params, unshown: (TemplateId, Params) -> Node): Node {
    match id
    case Event => EventTemplate.Event(p)
    case Changelog => ChangelogTemplate.Changelog(p)
    case Announcement => AnnouncementTemplate.Announcement(p)
    case _ => unshown(id, p)
  }

  /**
   * `getTemplate`: the layout tree of the template the name selects. An
   * unknown name draws the basic template.
   */
  function GetTemplate(p: Params, unshown: (TemplateId, Params) -> Node): (r: Node)
    ensures p.template !in ListTemplates() ==> r == unshown(Basic, p)
    ensures p.template in ListTemplates() && Unshown(Resolve(p.template)) ==>
      NameOf(Resolve(p.template)) == p.template && r == unshown(Resolve(p.template), p)
  {
    Draw(Resolve(p.template), p, unshown)
  }

  /** The name "event" draws the event card. */
  lemma GetTemplateEvent(p: Params, unshown: (TemplateId, Params) -> Node)
    requires p.template == "event"
    ensures GetTemplate(p, unshown) == EventTemplate.Event(p)
  {
    ResolveNameOf(Event);
  }

  /** The name "changelog" draws the changelog card. */
  lemma GetTemplateChangelog(p: Params, unshown: (TemplateId, Params) -> Node)
    requires p.template == "changelog"
    ensures GetTemplate(p, unshown) == ChangelogTemplate.Changelog(p)
  {
    ResolveNameOf(Changelog);
  }

  /** The name "announcement" draws the announcement card. */
  lemma GetTemplateAnnouncement(p: Params, unshown: (TemplateId, Params) -> Node)
    requires p.template == "announcement"
    ensures GetTemplate(p, unshown) == AnnouncementTemplate.Announcement(p)
  {
    ResolveNameOf(Announcement);
  }
}
