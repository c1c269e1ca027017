/** The technology catalogue and the retention default from the application's
    configuration, and the "flatten all categories" loop that both the LLM client
    and the prompt manager run over it. */
module Catalogue {
  import opened Strings

  /** Category names, in the catalogue's insertion order. */
  const CATEGORY_NAMES: seq<string> :=
    ["programming_languages", "frameworks", "databases", "cloud_platforms", "tools"]

  /** The technologies of each category, in the same order as CATEGORY_NAMES.
      Docker and Kubernetes are listed both as cloud platforms and as tools. */
  const CATEGORIES: seq<seq<string>> := [
    ["Python", "JavaScript", "Java", "C++", "C#", "Go", "Rust",
     "TypeScript", "PHP", "Ruby", "Swift", "Kotlin", "Scala"],
    ["React", "Angular", "Vue.js", "Django", "Flask", "FastAPI",
     "Spring Boot", "Express.js", "Next.js", "Laravel", "Rails"],
    ["PostgreSQL", "MySQL", "MongoDB", "Redis", "SQLite",
     "Oracle", "Cassandra", "DynamoDB", "Elasticsearch"],
    ["AWS", "Google Cloud", "Azure", "Heroku", "Vercel",
     "Netlify", "DigitalOcean", "Kubernetes", "Docker"],
    ["Git", "Jenkins", "Docker", "Kubernetes", "Terraform",
     "Ansible", "Prometheus", "Grafana", "Jira", "Confluence"]
  ]

  /** Default retention period of stored candidate data, in days. */
  const DATA_RETENTION_DAYS: int := 30

  /** The categories' lists one after the other, duplicates kept. */
  function Flatten(cats: seq<seq<string>>): (r: seq<string>)
    ensures forall t :: t in r <==> exists k :: 0 <= k < |cats| && t in cats[k]
  {
    if cats == [] then [] else cats[0] + Flatten(cats[1..])
  }

  lemma {:induction false} FlattenSnoc(cats: seq<seq<string>>, last: seq<string>)
    ensures Flatten(cats + [last]) == Flatten(cats) + last
  {
    if cats != [] {
      assert (cats + [last])[1..] == cats[1..] + [last];
      FlattenSnoc(cats[1..], last);
    } else {
      assert Flatten([last][1..]) == [];
    }
  }

  /** Every technology of the catalogue, category by category. */
  function AllTechs(): seq<string> {
    Flatten(CATEGORIES)
  }

  /** `t` is listed in some category. */
  predicate Listed(t: string) {
    exists k :: 0 <= k < |CATEGORIES| && t in CATEGORIES[k]
  }

  lemma ListedIff()
    ensures forall t :: t in AllTechs() <==> Listed(t)
  {
  }

  /** The `for category, techs in TECH_CATEGORIES.items(): all_techs.extend(techs)` loop. */
  method CollectAllTechs() returns (all: seq<string>)
    ensures all == AllTechs()
  {
    all := [];
    for k := 0 to |CATEGORIES|
      invariant all == Flatten(CATEGORIES[..k])
    {
      FlattenSnoc(CATEGORIES[..k], CATEGORIES[k]);
      assert CATEGORIES[..k + 1] == CATEGORIES[..k] + [CATEGORIES[k]];
      all := all + CATEGORIES[k];
    }
    assert CATEGORIES[..|CATEGORIES|] == CATEGORIES;
  }

  /** The flattened catalogue has 52 entries, and Docker and Kubernetes occur in
      it twice: once as cloud platforms, once as tools. */
  lemma AllTechsShape()
    ensures |AllTechs()| == 52
    ensures AllTechs()[40] == "Kubernetes" && AllTechs()[41] == "Docker"
    ensures AllTechs()[44] == "Docker" && AllTechs()[45] == "Kubernetes"
  {
    var all := CATEGORIES[0] + CATEGORIES[1] + CATEGORIES[2] + CATEGORIES[3] + CATEGORIES[4];
    assert AllTechs() == all by {
      assert Flatten(CATEGORIES[4..]) == CATEGORIES[4];
      assert Flatten(CATEGORIES[3..]) == CATEGORIES[3] + CATEGORIES[4];
      assert Flatten(CATEGORIES[2..]) == CATEGORIES[2] + CATEGORIES[3] + CATEGORIES[4];
      assert Flatten(CATEGORIES[1..]) == CATEGORIES[1] + CATEGORIES[2] + CATEGORIES[3] + CATEGORIES[4];
    }
  }

  /** Every name in `ts` starts with an ASCII letter. */
  predicate StartWithLetters(ts: seq<string>) {
    forall i :: 0 <= i < |ts| ==> ts[i] != [] && IsAsciiLetter(ts[i][0])
  }

  lemma CategoryStartsWithLetter(k: nat)
    requires k < |CATEGORIES|
    ensures forall t :: t in CATEGORIES[k] ==> t != [] && IsAsciiLetter(t[0])
  {
    if k == 0 {
      assert StartWithLetters(CATEGORIES[0]);
    } else if k == 1 {
      assert StartWithLetters(CATEGORIES[1]);
    } else if k == 2 {
      assert StartWithLetters(CATEGORIES[2]);
    } else if k == 3 {
      assert StartWithLetters(CATEGORIES[3]);
    } else {
      assert StartWithLetters(CATEGORIES[4]);
    }
  }

  /** Every catalogue entry starts with an ASCII letter, so none of its spelling
      variants is empty. */
  lemma EntriesStartWithLetter()
    ensures forall t :: t in AllTechs() ==> t != [] && IsAsciiLetter(t[0])
  {
    forall t | t in AllTechs()
      ensures t != [] && IsAsciiLetter(t[0])
    {
      var k :| 0 <= k < |CATEGORIES| && t in CATEGORIES[k];
      CategoryStartsWithLetter(k);
    }
  }
}
