/** The configuration store: one dictionary that belongs to the `ContextManager` class itself,
    so every instance reads and writes the same entries. */
module ContextManager {
  import opened PyValues

  /** The entries the class dictionary holds before any `set_config`. */
  function Defaults(): (d: map<string, PyValue>)
    ensures "CHROMA_PATH" in d && d["CHROMA_PATH"] == PyStr("chroma")
    ensures "RESET_RESULTS" in d && d["RESET_RESULTS"] == PyBool(true)
  {
    map[
      "CHROMA_PATH" := PyStr("chroma"),
      "DATA_PATHS" := PyList([PyStr("Data/Excluded"), PyStr("Data/Included")]),
      "RESULT_PATH" := PyStr("results"),
      "RESULT_FILE" := PyStr("results.csv"),
      "MODEL_CLIENT_URL" := PyStr("http://localhost:11434"),
      "EMBEDDING_MODEL" := PyStr("nomic-embed-text:latest"),
      "RAG_MODEL" := PyStr("mixtral:latest"),
      "LOCAL_MODELS" := PyBool(true),
      "DATA_FORMAT" := PyStr("*.pdf"),
      "RANDOM_SUBSET" := PyBool(false),
      "SUBSET_SIZE" := PyInt(5),
      "RELEVANCE_THRESHOLD_CUTOFF" := PyFloat(0.7),
      "APPLY_RELEVANCE_THRESHOLD" := PyBool(true),
      "APPLY_RERANKING" := PyBool(false),
      "SIMILARITY_SEARCH_K" := PyInt(4),
      "CHUNK_SIZE" := PyInt(1000),
      "CHUNK_OVERLAP" := PyInt(100),
      "VERBOSE_CODE" := PyBool(true),
      "LOGGING_LEVEL" := PyStr("INFO"),
      "PROGRESS_BAR" := PyBool(true),
      "RESET_RESULTS" := PyBool(true),
      "CHECKPOINT_DICTIONARY" := PyNone,
      "PROMPT_TEMPLATE" := PyNone,
      "QUESTION" := PyNone,
      "CSV_HEADER" := PyList([PyStr("title"), PyStr("converted"), PyStr("embedded"),
                              PyStr("relevant"), PyStr("checkpoints"), PyStr("reasoning")])
    ]
  }

  /** `dict.get(key)`: the stored value, or None for a missing key. */
  function Lookup(config: map<string, PyValue>, key: string): (v: PyValue)
    ensures key !in config ==> v == PyNone
    ensures key in config ==> v == config[key]
  {
    if key in config then config[key] else PyNone
  }

  /** Reading back a key just written gives the written value; every other key reads as before. */
  lemma LookupAfterStore(config: map<string, PyValue>, key: string, value: PyValue, other: string)
    ensures Lookup(config[key := value], key) == value
    ensures other != key ==> Lookup(config[key := value], other) == Lookup(config, other)
    ensures config[key := value][key := value] == config[key := value]
  {
  }

  /** The class object: it owns `_config`. */
  class ConfigStore {
    var config: map<string, PyValue>

    constructor ()
      ensures config == Defaults()
    {
      config := Defaults();
    }
  }

  /** An instance: its class methods act on the class dictionary, not on the instance. */
  class ContextManager {
    const cls: ConfigStore

    constructor (cls: ConfigStore)
      ensures this.cls == cls
    {
      this.cls := cls;
    }

    method GetConfig(key: string) returns (v: PyValue)
      ensures key in cls.config ==> v == cls.config[key]
      ensures key !in cls.config ==> v == PyNone
    {
      v := Lookup(cls.config, key);
    }

    method SetConfig(key: string, value: PyValue)
      modifies cls
      ensures cls.config == old(cls.config)[key := value]
      ensures Lookup(cls.config, key) == value
      ensures forall k :: k != key ==> Lookup(cls.config, k) == Lookup(old(cls.config), k)
    {
      cls.config := cls.config[key := value];
    }
  }

  /** Two instances of the class see the same dictionary: a value set through one is read
      through the other, and the defaults are there before any set. */
  method SharedAcrossInstances() returns (chroma: PyValue, missing: PyValue, seen: PyValue)
    ensures chroma == PyStr("chroma")
    ensures missing == PyNone
    ensures seen == PyStr("/path/to/new/chroma")
  {
    var cls := new ConfigStore();
    var first := new ContextManager(cls);
    var second := new ContextManager(cls);
    chroma := second.GetConfig("CHROMA_PATH");
    missing := first.GetConfig("NONEXISTENT_KEY");
    first.SetConfig("CHROMA_PATH", PyStr("/path/to/new/chroma"));
    seen := second.GetConfig("CHROMA_PATH");
  }
}
