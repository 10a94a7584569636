/**
 * The static registries of nboost/maps.py: model class -> module, model id
 * -> class, model id -> artifact url (each id also reachable under its
 * legacy alias), and the backend configuration.
 */
module Maps {
  import opened Wrappers

  /** `MODULE_MAP`: implementation class name -> module it lives in. */
  const ModuleMap: map<string, string> := map[
    "QAModel" := "models.qa",
    "ShuffleModel" := "models.shuffle",
    "PtBertModel" := "models.pt_models.bert",
    "TfBertModel" := "models.tf_models.bert",
    "TfAlbertModel" := "models.tf_models.albert",
    "PtDistilBertQAModel" := "models.pt_models.distilbert_qa"
  ]

  /** The `CLASS_MAP` literal, before the legacy aliases are added. */
  const ClassMapLiteral: map<string, string> := map[
    "tf-bert-base-uncased-msmarco" := "TfBertModel",
    "tf-albert-tiny-uncased-msmarco" := "TfAlbertModel",
    "tf-biobert-base-uncased-msmarco" := "TfBertModel",
    "pt-tinybert-msmarco" := "PtBertModel",
    "pt-bert-base-uncased-msmarco" := "PtBertModel",
    "shuffle-model" := "ShuffleModel"
  ]

  /** The `URL_MAP` literal, before the legacy aliases are added. */
  const UrlMapLiteral: map<string, string> := map[
    "tf-bert-base-uncased-msmarco" := "https://storage.googleapis.com/koursaros/bert-base-uncased-msmarco.tar.gz",
    "tf-albert-tiny-uncased-msmarco" := "https://storage.googleapis.com/koursaros/albert-tiny-uncased-msmarco.tar.gz",
    "tf-biobert-base-uncased-msmarco" := "https://storage.googleapis.com/koursaros/biobert-base-uncased-msmarco.tar.gz",
    "pt-tinybert-msmarco" := "https://storage.googleapis.com/koursaros/pt-tinybert-msmarco.tar.gz",
    "pt-bert-base-uncased-msmarco" := "https://storage.googleapis.com/koursaros/pt-bert-base-uncased-msmarco.tar.gz",
    "shuffle-model" := "https://example.com"
  ]

  /*
   * The in-place inserts `m[alias] = m[canonical]`, one constant per
   * statement, in order. Each right-hand lookup must find its key, or the
   * module would fail to load with a KeyError; Dafny checks that it does.
   */
  const ClassMap1: map<string, string> :=
    ClassMapLiteral["bert-base-uncased-msmarco" := ClassMapLiteral["tf-bert-base-uncased-msmarco"]]
  const ClassMap2: map<string, string> :=
    ClassMap1["albert-tiny-uncased-msmarco" := ClassMap1["tf-albert-tiny-uncased-msmarco"]]
  /** `CLASS_MAP` once loaded: model id -> implementation class name. */
  const ClassMap: map<string, string> :=
    ClassMap2["biobert-base-uncased-msmarco" := ClassMap2["tf-biobert-base-uncased-msmarco"]]

  const UrlMap1: map<string, string> :=
    UrlMapLiteral["bert-base-uncased-msmarco" := UrlMapLiteral["tf-bert-base-uncased-msmarco"]]
  const UrlMap2: map<string, string> :=
    UrlMap1["albert-tiny-uncased-msmarco" := UrlMap1["tf-albert-tiny-uncased-msmarco"]]
  /** `URL_MAP` once loaded: model id -> artifact url. */
  const UrlMap: map<string, string> :=
    UrlMap2["biobert-base-uncased-msmarco" := UrlMap2["tf-biobert-base-uncased-msmarco"]]

  /** The six ids written out in the literals. */
  const CanonicalIds: set<string> := {
    "tf-bert-base-uncased-msmarco", "tf-albert-tiny-uncased-msmarco",
    "tf-biobert-base-uncased-msmarco", "pt-tinybert-msmarco",
    "pt-bert-base-uncased-msmarco", "shuffle-model"
  }

  /** The legacy ids (from before the tf/pt prefixes) and the id each stands for. */
  const Aliases: map<string, string> := map[
    "bert-base-uncased-msmarco" := "tf-bert-base-uncased-msmarco",
    "albert-tiny-uncased-msmarco" := "tf-albert-tiny-uncased-msmarco",
    "biobert-base-uncased-msmarco" := "tf-biobert-base-uncased-msmarco"
  ]

  lemma ClassMapKeys()
    ensures ClassMap.Keys == CanonicalIds + Aliases.Keys
  {
  }

  lemma UrlMapKeys()
    ensures UrlMap.Keys == CanonicalIds + Aliases.Keys
  {
  }

  /** The literal ids and the legacy ids are apart: six and three, nine in all. */
  lemma IdsApart()
    ensures CanonicalIds !! Aliases.Keys
    ensures |CanonicalIds + Aliases.Keys| == 9
  {
    var legacy := {"bert-base-uncased-msmarco", "albert-tiny-uncased-msmarco", "biobert-base-uncased-msmarco"};
    AliasKeys(legacy);
    LegacyApart(legacy);
  }

  lemma LegacyApart(legacy: set<string>)
    requires legacy == {"bert-base-uncased-msmarco", "albert-tiny-uncased-msmarco", "biobert-base-uncased-msmarco"}
    ensures CanonicalIds !! legacy
    ensures |CanonicalIds + legacy| == 9
  {
  }

  lemma AliasKeys(legacy: set<string>)
    requires legacy == {"bert-base-uncased-msmarco", "albert-tiny-uncased-msmarco", "biobert-base-uncased-msmarco"}
    ensures Aliases.Keys == legacy
  {
  }

  /** CLASS_MAP and URL_MAP know exactly the same nine ids: the six literal ones and the three aliases. */
  lemma KnownIds()
    ensures ClassMap.Keys == CanonicalIds + Aliases.Keys
    ensures UrlMap.Keys == ClassMap.Keys
    ensures CanonicalIds !! Aliases.Keys
    ensures |ClassMap| == 9
  {
    ClassMapKeys();
    UrlMapKeys();
    IdsApart();
    assert |ClassMap| == |ClassMap.Keys|;
  }

  /** Every class CLASS_MAP names has a module, so id -> class -> module never fails. */
  lemma ClassesHaveModules()
    ensures forall id :: id in ClassMap ==> ClassMap[id] in ModuleMap
  {
    ClassMapKeys();
  }

  /** The alias inserts copy the entries of the `tf-` ids they stand for. */
  lemma BertAliasAgrees()
    ensures ClassMap["bert-base-uncased-msmarco"] == ClassMap["tf-bert-base-uncased-msmarco"]
    ensures UrlMap["bert-base-uncased-msmarco"] == UrlMap["tf-bert-base-uncased-msmarco"]
  {
  }

  lemma AlbertAliasAgrees()
    ensures ClassMap["albert-tiny-uncased-msmarco"] == ClassMap["tf-albert-tiny-uncased-msmarco"]
    ensures UrlMap["albert-tiny-uncased-msmarco"] == UrlMap["tf-albert-tiny-uncased-msmarco"]
  {
  }

  lemma BiobertAliasAgrees()
    ensures ClassMap["biobert-base-uncased-msmarco"] == ClassMap["tf-biobert-base-uncased-msmarco"]
    ensures UrlMap["biobert-base-uncased-msmarco"] == UrlMap["tf-biobert-base-uncased-msmarco"]
  {
  }

  /** One legacy alias agrees with the id it stands for, in CLASS_MAP and in URL_MAP. */
  lemma AliasAgrees(a: string)
    requires a in Aliases
    ensures a in ClassMap && Aliases[a] in ClassMap && ClassMap[a] == ClassMap[Aliases[a]]
    ensures a in UrlMap && Aliases[a] in UrlMap && UrlMap[a] == UrlMap[Aliases[a]]
  {
    if a == "bert-base-uncased-msmarco" {
      BertAliasAgrees();
    } else if a == "albert-tiny-uncased-msmarco" {
      AlbertAliasAgrees();
    } else {
      BiobertAliasAgrees();
    }
  }

  /** Every alias resolves to the same class and the same url as the id it stands for. */
  lemma AliasesAgree()
    ensures forall a :: a in Aliases ==>
      a in ClassMap && Aliases[a] in ClassMap && ClassMap[a] == ClassMap[Aliases[a]]
    ensures forall a :: a in Aliases ==>
      a in UrlMap && Aliases[a] in UrlMap && UrlMap[a] == UrlMap[Aliases[a]]
  {
    forall a | a in Aliases
      ensures a in ClassMap && Aliases[a] in ClassMap && ClassMap[a] == ClassMap[Aliases[a]]
      ensures a in UrlMap && Aliases[a] in UrlMap && UrlMap[a] == UrlMap[Aliases[a]]
    {
      AliasAgrees(a);
    }
  }

  /** Alias targets are literal ids, never aliases themselves: there are no alias chains. */
  lemma NoAliasChains()
    ensures forall a :: a in Aliases ==> Aliases[a] in CanonicalIds && Aliases[a] !in Aliases
  {
  }

  /** The id an id stands for: its target if it is an alias, itself otherwise. */
  function Canonical(id: string): (c: string)
    ensures id in Aliases ==> c == Aliases[id] && c in CanonicalIds
    ensures id !in Aliases ==> c == id
  {
    if id in Aliases then Aliases[id] else id
  }

  /** Resolving aliases is idempotent. */
  lemma CanonicalIdempotent(id: string)
    ensures Canonical(Canonical(id)) == Canonical(id)
  {
    NoAliasChains();
  }

  /** Everything a model id selects: its class, the class's module and the artifact url. */
  datatype Registration = Registration(className: string, moduleName: string, url: string)

  /** For an id of CLASS_MAP, the class lookup in MODULE_MAP and the url lookup both succeed. */
  lemma LookupsSucceed(id: string)
    requires id in ClassMap
    ensures ClassMap[id] in ModuleMap && id in UrlMap
  {
    ClassesHaveModules();
    ClassMapKeys();
    UrlMapKeys();
  }

  /**
   * Looks a model id up in CLASS_MAP, then its class in MODULE_MAP, and the
   * id in URL_MAP; `None` stands for the KeyError of the first lookup. The
   * two later lookups are proved never to fail.
   */
  function Resolve(id: string): (r: Option<Registration>)
    ensures r.Some? <==> id in ClassMap
    ensures r.Some? ==> id in UrlMap && ClassMap[id] in ModuleMap
    ensures r.Some? ==> r.value.className == ClassMap[id] && r.value.url == UrlMap[id]
    ensures r.Some? ==> r.value.moduleName == ModuleMap[r.value.className]
  {
    if id in ClassMap then
      LookupsSucceed(id);
      Some(Registration(ClassMap[id], ModuleMap[ClassMap[id]], UrlMap[id]))
    else None
  }

  /** Resolution succeeds exactly for the six literal ids and the three aliases. */
  lemma ResolveKnownIds(id: string)
    ensures Resolve(id).Some? <==> id in CanonicalIds || id in Aliases
  {
    ClassMapKeys();
  }

  /** Resolving an id and resolving what it stands for give the same registration. */
  lemma ResolveThroughAlias(id: string)
    ensures Resolve(Canonical(id)) == Resolve(id)
  {
    if id in Aliases {
      AliasAgrees(id);
    }
  }

  /** The classes CLASS_MAP selects. */
  lemma ClassMapValues()
    ensures ClassMap.Values == {"TfBertModel", "TfAlbertModel", "PtBertModel", "ShuffleModel"}
  {
    ClassMapKeys();
    assert ClassMap["tf-bert-base-uncased-msmarco"] == "TfBertModel";
    assert ClassMap["tf-albert-tiny-uncased-msmarco"] == "TfAlbertModel";
    assert ClassMap["pt-tinybert-msmarco"] == "PtBertModel";
    assert ClassMap["shuffle-model"] == "ShuffleModel";
  }

  /** MODULE_MAP is not a bijection with the classes in use: two of its classes are never selected by an id. */
  lemma UnusedModules()
    ensures ClassMap.Values <= ModuleMap.Keys
    ensures ModuleMap.Keys - ClassMap.Values == {"QAModel", "PtDistilBertQAModel"}
  {
    ClassMapValues();
    assert ModuleMap.Keys == {"QAModel", "ShuffleModel", "PtBertModel", "TfBertModel", "TfAlbertModel", "PtDistilBertQAModel"};
  }

  /** A backend configuration value: a path-expression or pattern string, or a number. */
  datatype ConfigValue = Text(text: string) | Number(n: int)

  /** The configuration of the elasticsearch backend; strings are kept uninterpreted. */
  const ElasticsearchConfig: map<string, ConfigValue> := map[
    "query_path" := Text("(body.query.match) | (body.query.term.*) | ($.url.query.q)"),
    "topk_path" := Text("(body.size) | (url.query.size)"),
    "cvalues_path" := Text("$.body.hits.hits[*]._source.*"),
    "true_cids_path" := Text("$.body.nboost.cids"),
    "cids_path" := Text("$.body.hits.hits[*]._id"),
    "choices_path" := Text("$.body.hits.hits"),
    "capture_path" := Text("/.*/_search"),
    "default_topk" := Number(10)
  ]

  /** `CONFIG_MAP`: backend name -> configuration. */
  const ConfigMap: map<string, map<string, ConfigValue>> := map["elasticsearch" := ElasticsearchConfig]

  /** The single backend and its eight configuration keys. */
  lemma ConfigKeys()
    ensures ConfigMap.Keys == {"elasticsearch"}
    ensures ConfigMap["elasticsearch"].Keys == {
      "query_path", "topk_path", "cvalues_path", "true_cids_path",
      "cids_path", "choices_path", "capture_path", "default_topk" }
  {
  }

  // The `default_topk` entry is the number 10 and the `capture_path` entry is the literal string "/.*/_search".
  lemma ConfigDefaults()
    ensures ConfigMap["elasticsearch"]["default_topk"] == Number(10)
    ensures ConfigMap["elasticsearch"]["capture_path"] == Text("/.*/_search")
  {
  }
}
