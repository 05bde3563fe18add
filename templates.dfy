/**
  The template matcher of the prompt generator (js/prompt-gen/templates.js). Each template has
  a name, a list of trigger keywords and a text generator; the matcher scores every template by
  the number of its keywords that occur in the lower-cased input and takes the earliest template
  with the best positive score, searching one category when a known one is named and the whole
  catalogue otherwise. The generators' texts are not modelled: the caller supplies them as a
  function of the template and the input.
*/
module PromptTemplates {
  import opened Wrappers
  import opened Text

  datatype Template = Template(name: string, triggers: seq<string>)

  datatype Category = Category(id: string, name: string, templates: seq<Template>)

  /** The record `generateFromTemplate` returns. */
  datatype Generated = Generated(templateName: string, prompt: string)

  /** The catalogue `PROMPT_CATEGORIES`: ids, display names, template names and triggers. */
  const PromptCategories: seq<Category> := [
    Category("programming", "Programación", [
      Template("Plan de Implementación",
        ["implementar", "crear", "desarrollar", "feature", "funcionalidad", "hacer"]),
      Template("Debug Strategy",
        ["error", "bug", "debug", "fallo", "no funciona", "problema", "arreglar"]),
      Template("Code Review",
        ["review", "revisar", "código", "mejorar", "optimizar", "refactor"]),
      Template("Generador de API",
        ["api", "endpoint", "rest", "graphql", "backend", "servidor"])]),
    Category("writing", "Escritura", [
      Template("Artículo Profesional",
        ["artículo", "blog", "post", "escribir", "texto", "contenido", "redactar"]),
      Template("Email Profesional",
        ["email", "correo", "mail", "mensaje", "comunicación"])]),
    Category("marketing", "Marketing", [
      Template("Copy Publicitario",
        ["copy", "anuncio", "publicidad", "campaña", "ad", "vender", "producto", "marketing"]),
      Template("Estrategia SEO",
        ["seo", "posicionamiento", "google", "keywords", "tráfico", "orgánico"])]),
    Category("analysis", "Análisis", [
      Template("Análisis de Datos",
        ["datos", "análisis", "data", "métricas", "estadísticas", "dashboard", "reporte"])]),
    Category("education", "Educación", [
      Template("Explicación Experta",
        ["explicar", "explicame", "qué es", "cómo funciona", "tutorial", "aprender", "entender", "enseñar"])]),
    Category("design", "Diseño", [
      Template("Brief de Diseño",
        ["diseño", "diseñar", "ui", "ux", "interfaz", "mockup", "wireframe", "prototipo"])]),
    Category("business", "Negocios", [
      Template("Plan de Negocio",
        ["negocio", "business", "empresa", "startup", "emprender", "propuesta", "plan", "estrategia"])])
  ]

  /** Every category has a template to fall back on, and there is a first category. */
  predicate WellFormed(cats: seq<Category>) {
    |cats| > 0 && forall i :: 0 <= i < |cats| ==> |cats[i].templates| > 0
  }

  /** The catalogue has seven categories with distinct ids, none of them `'all'` or empty, and
      every one of them has a template. */
  lemma CatalogueShape()
    ensures WellFormed(PromptCategories)
    ensures |PromptCategories| == 7
    ensures forall i, j :: 0 <= i < j < |PromptCategories| ==> PromptCategories[i].id != PromptCategories[j].id
    ensures forall i :: 0 <= i < |PromptCategories| ==> PromptCategories[i].id !in {"", "all"}
  {
  }

  /** No keyword of the catalogue is empty. */
  lemma CatalogueTriggers()
    ensures NoBlankTriggers(PromptCategories)
  {
  }

  /** No keyword is the empty string (the empty string occurs in every input). */
  predicate NoBlankTriggers(cats: seq<Category>) {
    forall i, j, k :: 0 <= i < |cats| && 0 <= j < |cats[i].templates| && 0 <= k < |cats[i].templates[j].triggers|
      ==> cats[i].templates[j].triggers[k] != ""
  }

  /** The score of a template: `trigger.reduce((s, kw) => s + (lower.includes(kw) ? 1 : 0), 0)`. */
  function Score(lower: string, triggers: seq<string>): (n: nat)
    ensures n <= |triggers|
  {
    if triggers == [] then 0
    else Score(lower, triggers[..|triggers| - 1]) + (if Includes(lower, triggers[|triggers| - 1]) then 1 else 0)
  }

  /** The positions of the keywords that occur in the input. */
  function Matches(lower: string, triggers: seq<string>): set<nat> {
    set i: nat | i < |triggers| && Includes(lower, triggers[i])
  }

  /** The score counts the keywords that occur in the input, each position once. */
  lemma {:induction false} ScoreCounts(lower: string, triggers: seq<string>)
    ensures Score(lower, triggers) == |Matches(lower, triggers)|
    decreases |triggers|
  {
    if triggers != [] {
      var n := |triggers| - 1;
      var front := triggers[..n];
      ScoreCounts(lower, front);
      var last: set<nat> := if Includes(lower, triggers[n]) then {n} else {};
      assert Matches(lower, triggers) == Matches(lower, front) + last;
      assert n !in Matches(lower, front);
    }
  }

  /** A template scores at all exactly when one of its keywords occurs in the input. */
  lemma ScorePositive(lower: string, triggers: seq<string>)
    ensures Score(lower, triggers) > 0 <==> exists i :: 0 <= i < |triggers| && Contains(lower, triggers[i])
  {
    ScoreCounts(lower, triggers);
    if exists i :: 0 <= i < |triggers| && Contains(lower, triggers[i]) {
      var i :| 0 <= i < |triggers| && Contains(lower, triggers[i]);
      assert i in Matches(lower, triggers);
    }
    if Score(lower, triggers) > 0 {
      var i :| i in Matches(lower, triggers);
    }
  }

  /** The pair `best`, `bestScore` of the search loops (`best` is `null` at first). */
  datatype Pick = Pick(best: Option<Template>, score: nat)

  /** One iteration: only a strictly greater score replaces the current best. */
  function Step(p: Pick, t: Template, lower: string): Pick {
    var s := Score(lower, t.triggers);
    if s > p.score then Pick(Some(t), s) else p
  }

  /** The pair after visiting the templates ts, in order, starting from p. */
  function Scan(p: Pick, ts: seq<Template>, lower: string): Pick
    decreases |ts|
  {
    if ts == [] then p else Step(Scan(p, ts[..|ts| - 1], lower), ts[|ts| - 1], lower)
  }

  /** A search starting from `best = null`, `bestScore = 0`. */
  function PickOf(ts: seq<Template>, lower: string): Pick {
    Scan(Pick(None, 0), ts, lower)
  }

  /** Visiting a then b is visiting a + b. */
  lemma {:induction false} ScanAppend(p: Pick, a: seq<Template>, b: seq<Template>, lower: string)
    ensures Scan(p, a + b, lower) == Scan(Scan(p, a, lower), b, lower)
    decreases |b|
  {
    if b == [] {
      assert a + b == a;
    } else {
      var n := |b| - 1;
      assert (a + b)[..|a + b| - 1] == a + b[..n];
      assert (a + b)[|a + b| - 1] == b[n];
      ScanAppend(p, a, b[..n], lower);
    }
  }

  /** The inner loop of both searches (js/prompt-gen/templates.js:326-329 and 338-341). */
  method ScanTemplates(p: Pick, ts: seq<Template>, lower: string) returns (q: Pick)
    ensures q == Scan(p, ts, lower)
  {
    q := p;
    for j := 0 to |ts|
      invariant q == Scan(p, ts[..j], lower)
    {
      assert ts[..j + 1][..j] == ts[..j];
      var t := ts[j];
      var score := Score(lower, t.triggers);
      if score > q.score {
        q := Pick(Some(t), score);
      }
    }
    assert ts[..|ts|] == ts;
  }

  /** Position i holds the earliest template with the largest score, and that score is positive. */
  ghost predicate FirstBest(ts: seq<Template>, lower: string, i: int) {
    && 0 <= i < |ts|
    && Score(lower, ts[i].triggers) > 0
    && (forall k :: 0 <= k < |ts| ==> Score(lower, ts[k].triggers) <= Score(lower, ts[i].triggers))
    && (forall k :: 0 <= k < i ==> Score(lower, ts[k].triggers) < Score(lower, ts[i].triggers))
  }

  /** The score the search ends with bounds every template's score, and is positive exactly when
      a template was found. */
  lemma {:induction false} PickBounds(ts: seq<Template>, lower: string)
    ensures forall k :: 0 <= k < |ts| ==> Score(lower, ts[k].triggers) <= PickOf(ts, lower).score
    ensures PickOf(ts, lower).best.None? <==> PickOf(ts, lower).score == 0
    decreases |ts|
  {
    if ts != [] {
      var n := |ts| - 1;
      var front := ts[..n];
      PickBounds(front, lower);
      assert forall k :: 0 <= k < n ==> front[k] == ts[k];
    }
  }

  /** A template found is the earliest one with the final score. */
  lemma {:induction false} PickFirst(ts: seq<Template>, lower: string)
    ensures PickOf(ts, lower).best.Some? ==>
              exists i :: 0 <= i < |ts| && ts[i] == PickOf(ts, lower).best.value
                          && Score(lower, ts[i].triggers) == PickOf(ts, lower).score
                          && forall k :: 0 <= k < i ==> Score(lower, ts[k].triggers) < PickOf(ts, lower).score
    decreases |ts|
  {
    if ts != [] {
      var n := |ts| - 1;
      var front := ts[..n];
      var q := PickOf(front, lower);
      if Score(lower, ts[n].triggers) > q.score {
        PickBounds(front, lower);
        assert forall k :: 0 <= k < n ==> front[k] == ts[k];
        assert ts[n] == PickOf(ts, lower).best.value;
      } else if q.best.Some? {
        PickFirst(front, lower);
        var i :| 0 <= i < n && front[i] == q.best.value && Score(lower, front[i].triggers) == q.score
                 && forall k :: 0 <= k < i ==> Score(lower, front[k].triggers) < q.score;
        assert forall k :: 0 <= k < i ==> front[k] == ts[k];
        assert ts[i] == PickOf(ts, lower).best.value;
      }
    }
  }

  /** The search finds nothing exactly when no template scores; otherwise it finds the earliest
      template with the largest score. */
  lemma PickIsFirstBest(ts: seq<Template>, lower: string)
    ensures PickOf(ts, lower).best.None? <==> forall k :: 0 <= k < |ts| ==> Score(lower, ts[k].triggers) == 0
    ensures PickOf(ts, lower).best.Some? ==>
              exists i :: FirstBest(ts, lower, i) && ts[i] == PickOf(ts, lower).best.value
  {
    PickBounds(ts, lower);
    PickFirst(ts, lower);
    var p := PickOf(ts, lower);
    if p.best.Some? {
      var i :| 0 <= i < |ts| && ts[i] == p.best.value && Score(lower, ts[i].triggers) == p.score
               && forall k :: 0 <= k < i ==> Score(lower, ts[k].triggers) < p.score;
      assert FirstBest(ts, lower, i);
    }
  }

  /** What the search finds is one of the templates searched. */
  lemma PickIsMember(ts: seq<Template>, lower: string)
    ensures PickOf(ts, lower).best.Some? ==> PickOf(ts, lower).best.value in ts
  {
    PickIsFirstBest(ts, lower);
  }

  /** `best || fallback`. */
  function OrElse(p: Pick, fallback: Template): Template {
    if p.best.Some? then p.best.value else fallback
  }

  /** `PROMPT_CATEGORIES.find(c => c.id === id)`: the first category with that id. */
  function FindCategory(cats: seq<Category>, id: string): (r: Option<Category>)
    ensures r.None? <==> forall k :: 0 <= k < |cats| ==> cats[k].id != id
    ensures r.Some? ==> exists i :: 0 <= i < |cats| && cats[i] == r.value
                                    && cats[i].id == id && forall k :: 0 <= k < i ==> cats[k].id != id
  {
    if cats == [] then None
    else if cats[0].id == id then Some(cats[0])
    else
      var r := FindCategory(cats[1..], id);
      assert forall k :: 1 <= k < |cats| ==> cats[k] == cats[1..][k - 1];
      r
  }

  /** `categoryId && categoryId !== 'all'`: an id given, not empty and not `'all'`. */
  predicate Narrowed(categoryId: Option<string>) {
    categoryId.Some? && categoryId.value != "" && categoryId.value != "all"
  }

  /** The templates of all categories, in declaration order. */
  function AllTemplates(cats: seq<Category>): seq<Template>
    decreases |cats|
  {
    if cats == [] then [] else AllTemplates(cats[..|cats| - 1]) + cats[|cats| - 1].templates
  }

  /** The category searched, when one is named and known. */
  function ChosenCategory(cats: seq<Category>, categoryId: Option<string>): Option<Category> {
    if Narrowed(categoryId) then FindCategory(cats, categoryId.value) else None
  }

  /** What `findBestTemplate` returns. */
  function BestTemplate(cats: seq<Category>, input: string, categoryId: Option<string>): Template
    requires WellFormed(cats)
  {
    var lower := Lower(input);
    match ChosenCategory(cats, categoryId)
    case Some(cat) =>
      assert exists i :: 0 <= i < |cats| && cats[i] == cat;
      OrElse(PickOf(cat.templates, lower), cat.templates[0])
    case None => OrElse(PickOf(AllTemplates(cats), lower), cats[0].templates[0])
  }

  /** `findBestTemplate(input, categoryId)` (js/prompt-gen/templates.js:316-346). */
  method FindBestTemplate(cats: seq<Category>, input: string, categoryId: Option<string>) returns (t: Template)
    requires WellFormed(cats)
    ensures t == BestTemplate(cats, input, categoryId)
  {
    var lower := Lower(input);
    if categoryId.Some? && categoryId.value != "" && categoryId.value != "all" {
      var found := FindCategory(cats, categoryId.value);
      if found.Some? {
        var cat := found.value;
        var p := ScanTemplates(Pick(None, 0), cat.templates, lower);
        if p.best.Some? {
          return p.best.value;
        }
        return cat.templates[0];
      }
    }
    var p := Pick(None, 0);
    for i := 0 to |cats|
      invariant p == PickOf(AllTemplates(cats[..i]), lower)
    {
      assert cats[..i + 1][..i] == cats[..i];
      var q := ScanTemplates(p, cats[i].templates, lower);
      ScanAppend(Pick(None, 0), AllTemplates(cats[..i]), cats[i].templates, lower);
      p := q;
    }
    assert cats[..|cats|] == cats;
    if p.best.Some? {
      return p.best.value;
    }
    return cats[0].templates[0];
  }

  /** Every template of every category is in the catalogue-wide list. */
  lemma {:induction false} InAllTemplates(cats: seq<Category>, i: nat, t: Template)
    requires i < |cats| && t in cats[i].templates
    ensures t in AllTemplates(cats)
    decreases |cats|
  {
    var n := |cats| - 1;
    if i < n {
      InAllTemplates(cats[..n], i, t);
    }
  }

  /** With a known category named, the result is a template of that category: the earliest
      with the largest positive score, or the category's first template when none scores. */
  lemma BestInCategory(cats: seq<Category>, input: string, categoryId: Option<string>, cat: Category)
    requires WellFormed(cats)
    requires ChosenCategory(cats, categoryId) == Some(cat)
    ensures var t := BestTemplate(cats, input, categoryId);
            var ts := cat.templates;
            && t in ts
            && ((forall k :: 0 <= k < |ts| ==> Score(Lower(input), ts[k].triggers) == 0) ==> t == ts[0])
            && ((exists k :: 0 <= k < |ts| && Score(Lower(input), ts[k].triggers) > 0) ==>
                  exists i :: FirstBest(ts, Lower(input), i) && t == ts[i])
  {
    var lower := Lower(input);
    PickIsFirstBest(cat.templates, lower);
    assert BestTemplate(cats, input, categoryId) == OrElse(PickOf(cat.templates, lower), cat.templates[0]);
  }

  /** With no category, `'all'` or an unknown id, the whole catalogue is searched in declaration
      order, and the first template of the first category is the fallback. */
  lemma BestOverall(cats: seq<Category>, input: string, categoryId: Option<string>)
    requires WellFormed(cats)
    requires ChosenCategory(cats, categoryId).None?
    ensures var t := BestTemplate(cats, input, categoryId);
            var ts := AllTemplates(cats);
            && ((forall k :: 0 <= k < |ts| ==> Score(Lower(input), ts[k].triggers) == 0) ==> t == cats[0].templates[0])
            && ((exists k :: 0 <= k < |ts| && Score(Lower(input), ts[k].triggers) > 0) ==>
                  exists i :: FirstBest(ts, Lower(input), i) && t == ts[i])
  {
    var ts := AllTemplates(cats);
    var lower := Lower(input);
    PickIsFirstBest(ts, lower);
    assert BestTemplate(cats, input, categoryId) == OrElse(PickOf(ts, lower), cats[0].templates[0]);
  }

  /** With distinct ids, looking a category up by its own id finds it. */
  lemma {:induction false} FindOwnCategory(cats: seq<Category>, i: nat)
    requires i < |cats|
    requires forall a, b :: 0 <= a < b < |cats| ==> cats[a].id != cats[b].id
    ensures FindCategory(cats, cats[i].id) == Some(cats[i])
    decreases i
  {
    if i > 0 {
      assert cats[0].id != cats[i].id;
      var tail := cats[1..];
      assert forall a, b :: 0 <= a < b < |tail| ==> tail[a].id != tail[b].id by {
        forall a, b | 0 <= a < b < |tail| ensures tail[a].id != tail[b].id {
          assert tail[a] == cats[a + 1] && tail[b] == cats[b + 1];
        }
      }
      FindOwnCategory(tail, i - 1);
      assert tail[i - 1] == cats[i];
    }
  }

  /** No keyword occurs in the empty input. */
  lemma {:induction false} BlankScoresNothing(triggers: seq<string>)
    requires forall k :: 0 <= k < |triggers| ==> triggers[k] != ""
    ensures Score("", triggers) == 0
    decreases |triggers|
  {
    if triggers != [] {
      var n := |triggers| - 1;
      BlankScoresNothing(triggers[..n]);
      assert !Includes("", triggers[n]);
    }
  }

  /** Every template of the whole list comes from some category. */
  lemma {:induction false} FromSomeCategory(cats: seq<Category>, k: nat)
    requires k < |AllTemplates(cats)|
    ensures exists i, j :: 0 <= i < |cats| && 0 <= j < |cats[i].templates| && AllTemplates(cats)[k] == cats[i].templates[j]
    decreases |cats|
  {
    var n := |cats| - 1;
    var front := AllTemplates(cats[..n]);
    if k < |front| {
      FromSomeCategory(cats[..n], k);
      var i, j :| 0 <= i < n && 0 <= j < |cats[..n][i].templates| && front[k] == cats[..n][i].templates[j];
      assert AllTemplates(cats)[k] == cats[i].templates[j];
    } else {
      assert AllTemplates(cats)[k] == cats[n].templates[k - |front|];
    }
  }

  /** An empty input scores nothing, so the fallback is taken: the first template of the category
      named, or of the first category. */
  lemma BlankInput(cats: seq<Category>, categoryId: Option<string>)
    requires WellFormed(cats) && NoBlankTriggers(cats)
    ensures BestTemplate(cats, "", categoryId)
            == match ChosenCategory(cats, categoryId)
               case Some(cat) => cat.templates[0]
               case None => cats[0].templates[0]
  {
    assert Lower("") == "";
    match ChosenCategory(cats, categoryId)
    case Some(cat) =>
      var i :| 0 <= i < |cats| && cats[i] == cat;
      forall j | 0 <= j < |cat.templates| ensures Score("", cat.templates[j].triggers) == 0 {
        BlankScoresNothing(cats[i].templates[j].triggers);
      }
      BestInCategory(cats, "", categoryId, cat);
    case None =>
      var ts := AllTemplates(cats);
      forall k | 0 <= k < |ts| ensures Score("", ts[k].triggers) == 0 {
        FromSomeCategory(cats, k);
        var i, j :| 0 <= i < |cats| && 0 <= j < |cats[i].templates| && ts[k] == cats[i].templates[j];
        BlankScoresNothing(cats[i].templates[j].triggers);
      }
      BestOverall(cats, "", categoryId);
  }

  /** On the catalogue, an empty input gives "Plan de Implementación" when no category is named,
      and the first template of a category named by its id. */
  lemma BlankInputOnCatalogue(i: nat)
    requires i < |PromptCategories|
    ensures BestTemplate(PromptCategories, "", None).name == "Plan de Implementación"
    ensures BestTemplate(PromptCategories, "", Some(PromptCategories[i].id)) == PromptCategories[i].templates[0]
  {
    CatalogueShape();
    CatalogueTriggers();
    FindOwnCategory(PromptCategories, i);
    BlankInput(PromptCategories, None);
    BlankInput(PromptCategories, Some(PromptCategories[i].id));
  }

  /** The result is never missing: it is always one of the catalogue's templates. */
  lemma BestIsCatalogued(cats: seq<Category>, input: string, categoryId: Option<string>)
    requires WellFormed(cats)
    ensures BestTemplate(cats, input, categoryId) in AllTemplates(cats)
  {
    var lower := Lower(input);
    match ChosenCategory(cats, categoryId)
    case Some(cat) =>
      var i :| 0 <= i < |cats| && cats[i] == cat;
      PickIsMember(cat.templates, lower);
      InAllTemplates(cats, i, BestTemplate(cats, input, categoryId));
    case None =>
      PickIsMember(AllTemplates(cats), lower);
      InAllTemplates(cats, 0, cats[0].templates[0]);
  }

  /** `generateFromTemplate(input, categoryId)` (js/prompt-gen/templates.js:348-354): the chosen
      template's name and the text its generator makes of the input. */
  method GenerateFromTemplate(input: string, categoryId: Option<string>, generate: (Template, string) -> string)
    returns (r: Generated)
    ensures var t := BestTemplate(PromptCategories, input, categoryId);
            r.templateName == t.name && r.prompt == generate(t, input)
  {
    CatalogueShape();
    var template := FindBestTemplate(PromptCategories, input, categoryId);
    r := Generated(template.name, generate(template, input));
  }
}
