/** The default configuration (src/constants/index.ts): eleven categories, the
    seven budget jars with their shares of monthly income, and the table that
    sends each spending category to a jar. */
module Constants {
  import opened Types

  const CATEGORIES: seq<Category> := [
    Category("housing", "Housing", "bg-blue-500"),
    Category("food", "Food", "bg-emerald-500"),
    Category("transport", "Transport", "bg-amber-500"),
    Category("fun", "Fun", "bg-rose-500"),
    Category("utilities", "Utilities", "bg-cyan-500"),
    Category("education", "Education", "bg-purple-500"),
    Category("savings", "Savings", "bg-green-500"),
    Category("investments", "Investments", "bg-indigo-500"),
    Category("giving", "Giving", "bg-pink-500"),
    Category("buffer", "Buffer", "bg-amber-500"),
    Category("income", "Income", "bg-slate-500")]

  const JAR_CONFIG: seq<Jar> := [
    Jar("necessities", "Necessities", 0.40, "bg-blue-500"),
    Jar("investments", "Investments (INV)", 0.22, "bg-indigo-500"),
    Jar("long_term_savings", "Long-Term Savings (LTSS)", 0.11, "bg-green-500"),
    Jar("education", "Education (EDU)", 0.13, "bg-purple-500"),
    Jar("play", "Play (FUN)", 0.05, "bg-rose-500"),
    Jar("give", "Give", 0.03, "bg-pink-500"),
    Jar("buffer", "Buffer", 0.06, "bg-amber-500")]

  const CATEGORY_TO_JAR_MAPPING: CategoryMapping := map[
    "housing" := "necessities",
    "food" := "necessities",
    "transport" := "necessities",
    "utilities" := "necessities",
    "fun" := "play",
    "education" := "education",
    "savings" := "long_term_savings",
    "investments" := "investments",
    "giving" := "give",
    "buffer" := "buffer"]

  /** The ids of a jar configuration. */
  function JarIds(jars: seq<Jar>): (ids: set<string>)
    ensures forall i :: 0 <= i < |jars| ==> jars[i].id in ids
    ensures forall id :: id in ids ==> exists i :: 0 <= i < |jars| && jars[i].id == id
  {
    set i | 0 <= i < |jars| :: jars[i].id
  }

  /** The share of income the jar with this id receives (0 for an unknown id). */
  function JarShare(jars: seq<Jar>, id: string): real
  {
    if jars == [] then 0.0
    else if jars[0].id == id then jars[0].percentage
    else JarShare(jars[1..], id)
  }

  function PercentageSum(jars: seq<Jar>): real
  {
    if jars == [] then 0.0 else jars[0].percentage + PercentageSum(jars[1..])
  }

  predicate DistinctJarIds(jars: seq<Jar>)
  {
    forall i, j :: 0 <= i < j < |jars| ==> jars[i].id != jars[j].id
  }

  predicate DistinctCategoryIds(cats: seq<Category>)
  {
    forall i, j :: 0 <= i < j < |cats| ==> cats[i].id != cats[j].id
  }

  /** The seven shares divide the whole income: they sum to exactly 1. */
  lemma PercentagesSumToOne()
    ensures PercentageSum(JAR_CONFIG) == 1.0
  {
    assert PercentageSum(JAR_CONFIG[6..]) == 0.06;
    assert PercentageSum(JAR_CONFIG[5..]) == 0.09;
    assert PercentageSum(JAR_CONFIG[4..]) == 0.14;
    assert PercentageSum(JAR_CONFIG[3..]) == 0.27;
    assert PercentageSum(JAR_CONFIG[2..]) == 0.38;
    assert PercentageSum(JAR_CONFIG[1..]) == 0.60;
  }

  /** Ids are keys: no two jars and no two categories share one. */
  lemma IdsDistinct()
    ensures DistinctJarIds(JAR_CONFIG)
    ensures DistinctCategoryIds(CATEGORIES)
  {
  }

  /** Every value of the mapping names a configured jar. */
  lemma MappingTargetsConfigured()
    ensures forall c :: c in CATEGORY_TO_JAR_MAPPING ==> CATEGORY_TO_JAR_MAPPING[c] in JarIds(JAR_CONFIG)
  {
    var ids := JarIds(JAR_CONFIG);
    assert JAR_CONFIG[0].id in ids && JAR_CONFIG[1].id in ids && JAR_CONFIG[2].id in ids;
    assert JAR_CONFIG[3].id in ids && JAR_CONFIG[4].id in ids && JAR_CONFIG[5].id in ids;
    assert JAR_CONFIG[6].id in ids;
  }

  /** Every category except 'income' has a jar; 'income' has none. */
  lemma EveryCategoryButIncomeMapped()
    ensures forall i :: 0 <= i < |CATEGORIES| ==>
      (CATEGORIES[i].id in CATEGORY_TO_JAR_MAPPING <==> CATEGORIES[i].id != "income")
    ensures "income" !in CATEGORY_TO_JAR_MAPPING
  {
  }

  /** Every jar receives at least one category. */
  lemma EveryJarReceivesACategory()
    ensures forall i :: 0 <= i < |JAR_CONFIG| ==>
      exists c :: c in CATEGORY_TO_JAR_MAPPING && CATEGORY_TO_JAR_MAPPING[c] == JAR_CONFIG[i].id
  {
    var m := CATEGORY_TO_JAR_MAPPING;
    assert m["housing"] == JAR_CONFIG[0].id;
    assert m["investments"] == JAR_CONFIG[1].id;
    assert m["savings"] == JAR_CONFIG[2].id;
    assert m["education"] == JAR_CONFIG[3].id;
    assert m["fun"] == JAR_CONFIG[4].id;
    assert m["giving"] == JAR_CONFIG[5].id;
    assert m["buffer"] == JAR_CONFIG[6].id;
  }
}
