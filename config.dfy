/**
 * The configuration loader: a lazily loading singleton that reads one YAML
 * file from the configuration directory, copying the template file there
 * first when the configuration file does not exist yet.
 *
 * The directory is modelled as a map from file names to their parsed
 * contents; an empty YAML file parses to `VNone`.
 */
module ConfigLoader {
  import opened Values
  import opened Text
  import opened Wrappers

  /** The name of the template file that a missing configuration is copied from. */
  const TemplateName: string := "template.yaml"

  /** `removesuffix` for a suffix that is known to be there. */
  function DropSuffix(s: string, suffix: string): (r: string)
    requires EndsWith(s, suffix)
    ensures r + suffix == s
  {
    s[..|s| - |suffix|]
  }

  /**
   * `_standardise_config_name`: a ".yml" suffix is dropped, and ".yaml" is
   * appended unless what remains already ends with it.
   */
  function StandardiseConfigName(name: string): (r: string)
    ensures EndsWith(r, ".yaml")
    ensures EndsWith(name, ".yaml") ==> r == name
    ensures !EndsWith(name, ".yml") && !EndsWith(name, ".yaml") ==> r == name + ".yaml"
    ensures EndsWith(name, ".yml") ==>
      var base := DropSuffix(name, ".yml");
      r == if EndsWith(base, ".yaml") then base else base + ".yaml"
  {
    assert EndsWith(name, ".yaml") ==> !EndsWith(name, ".yml") by {
      if EndsWith(name, ".yaml") { YamlIsNotYml(name); }
    }
    var base := if EndsWith(name, ".yml") then DropSuffix(name, ".yml") else name;
    if EndsWith(base, ".yaml") then base else base + ".yaml"
  }

  /** A name that ends in ".yaml" does not end in ".yml". */
  lemma YamlIsNotYml(s: string)
    requires EndsWith(s, ".yaml")
    ensures !EndsWith(s, ".yml")
  {
    assert s[|s| - 5..] == ".yaml";
    assert s[|s| - 4] == 'y';
    assert s[|s| - 4..][0] == 'y';
  }

  /** Standardising a standardised name changes nothing. */
  lemma StandardiseIdempotent(name: string)
    ensures StandardiseConfigName(StandardiseConfigName(name)) == StandardiseConfigName(name)
  {
    YamlIsNotYml(StandardiseConfigName(name));
  }

  /** A ".yml" name and its ".yaml" spelling name the same file. */
  lemma YmlAndYamlAgree(stem: string)
    requires !EndsWith(stem, ".yaml")
    ensures StandardiseConfigName(stem + ".yml") == StandardiseConfigName(stem + ".yaml")
  {
    var yml := stem + ".yml";
    assert EndsWith(yml, ".yml") && DropSuffix(yml, ".yml") == stem;
    var yaml := stem + ".yaml";
    assert EndsWith(yaml, ".yaml");
  }

  /** The two `FileNotFoundError`s of the loader. */
  datatype LoadError = DirectoryNotFound | TemplateNotFound

  /** What one `_ensure_and_load` run does: the document it read and the directory afterwards, or its error. */
  datatype Loaded = Loaded(doc: Value, files: map<string, Value>) | NotFound(error: LoadError)

  /**
   * `_initialise_with_default_config` followed by the read in `_ensure_and_load`:
   * a missing directory or a missing template raises, otherwise the template
   * is copied in whenever the configuration file is missing.
   */
  function EnsureAndLoad(dirExists: bool, files: map<string, Value>, name: string): (r: Loaded)
    ensures !dirExists ==> r == NotFound(DirectoryNotFound)
    ensures dirExists && name in files ==> r == Loaded(files[name], files)
    ensures dirExists && name !in files ==>
      if TemplateName in files then r == Loaded(files[TemplateName], files[name := files[TemplateName]])
      else r == NotFound(TemplateNotFound)
  {
    if !dirExists then NotFound(DirectoryNotFound)
    else if name in files then Loaded(files[name], files)
    else if TemplateName !in files then NotFound(TemplateNotFound)
    else
      var copied := files[name := files[TemplateName]];
      Loaded(copied[name], copied)
  }

  /**
   * After a successful run the configuration file exists and holds what was
   * read; a second run finds it, copies nothing and reads the same thing.
   */
  lemma EnsureAndLoadSettles(dirExists: bool, files: map<string, Value>, name: string)
    requires EnsureAndLoad(dirExists, files, name).Loaded?
    ensures var r := EnsureAndLoad(dirExists, files, name);
      && name in r.files && r.files[name] == r.doc
      && r.files.Keys == files.Keys + {name}
      && EnsureAndLoad(dirExists, r.files, name) == r
  {
  }

  /** A missing configuration file is created from the template, whose contents are then the configuration. */
  lemma MissingConfigComesFromTemplate(files: map<string, Value>, name: string)
    requires name !in files && TemplateName in files
    ensures EnsureAndLoad(true, files, name) == Loaded(files[TemplateName], files[name := files[TemplateName]])
  {
  }

  /** The configuration directory and the parsed contents of the files in it. */
  class ConfigDir {
    var present: bool
    var files: map<string, Value>

    constructor (present: bool, files: map<string, Value>)
      ensures this.present == present && this.files == files
    {
      this.present := present;
      this.files := files;
    }
  }

  /** The result of `load`/`get` and `reload`: a document, or a `FileNotFoundError`. */
  datatype LoadResult = Ok(doc: Value) | Err(error: LoadError)

  /** One `Config` object: the standardised name and the cached document (`VNone` until one is read). */
  class Config {
    var configName: string
    var cached: Value

    constructor (name: string)
      ensures configName == StandardiseConfigName(name) && cached == VNone
    {
      configName := StandardiseConfigName(name);
      cached := VNone;
    }

    /**
     * `load` (`get` in the observatory copy): a cached document is returned
     * without looking at the directory; otherwise the file is read (copying
     * the template first if needed) and cached. An empty file reads as
     * `VNone`, which leaves the cache empty, so the next call reads again.
     */
    method Load(dir: ConfigDir) returns (r: LoadResult)
      modifies this`cached, dir`files
      ensures old(cached) != VNone ==>
        r == Ok(old(cached)) && cached == old(cached) && dir.files == old(dir.files)
      ensures old(cached) == VNone ==>
        match EnsureAndLoad(old(dir.present), old(dir.files), configName)
        case Loaded(doc, files) => r == Ok(doc) && cached == doc && dir.files == files
        case NotFound(e) => r == Err(e) && cached == old(cached) && dir.files == old(dir.files)
    {
      if cached != VNone {
        return Ok(cached);
      }
      r := Reload(dir);
    }

    /** `reload`: always reads the file again, replacing the cache unless the read raises. */
    method Reload(dir: ConfigDir) returns (r: LoadResult)
      modifies this`cached, dir`files
      ensures match EnsureAndLoad(old(dir.present), old(dir.files), configName)
        case Loaded(doc, files) => r == Ok(doc) && cached == doc && dir.files == files
        case NotFound(e) => r == Err(e) && cached == old(cached) && dir.files == old(dir.files)
    {
      if !dir.present {
        return Err(DirectoryNotFound);
      }
      if configName !in dir.files {
        if TemplateName !in dir.files {
          return Err(TemplateNotFound);
        }
        dir.files := dir.files[configName := dir.files[TemplateName]];
      }
      cached := dir.files[configName];
      r := Ok(cached);
    }

    /** `config[key]`: a key of the loaded mapping; a missing key, or a document that is no mapping, raises. */
    method Item(dir: ConfigDir, key: string) returns (r: Option<Value>, err: Option<LoadError>)
      modifies this`cached, dir`files
      ensures old(cached) != VNone ==> err == None && (r.Some? <==> old(cached).VMap? && key in old(cached).entries)
      ensures r.Some? ==> cached.VMap? && key in cached.entries && r.value == cached.entries[key]
      ensures old(cached) == VNone ==>
        match EnsureAndLoad(old(dir.present), old(dir.files), configName)
        case Loaded(doc, files) =>
          err == None && (r.Some? <==> doc.VMap? && key in doc.entries) && cached == doc && dir.files == files
        case NotFound(e) => err == Some(e) && r == None && cached == old(cached) && dir.files == old(dir.files)
    {
      var doc := Load(dir);
      match doc
      case Err(e) =>
        r, err := None, Some(e);
      case Ok(d) =>
        err := None;
        r := if d.VMap? && key in d.entries then Some(d.entries[key]) else None;
    }
  }

  /** The class attribute `_instance` that makes `Config` a singleton. */
  class ConfigClass {
    var instance: Config?

    constructor ()
      ensures instance == null
    {
      instance := null;
    }

    /**
     * `Config(name)`: the first construction creates the instance; every later
     * one returns that same instance and ignores its argument.
     */
    method Construct(name: string) returns (c: Config)
      modifies this
      ensures old(instance) != null ==> c == old(instance) && unchanged(c)
      ensures old(instance) == null ==> fresh(c) && c.configName == StandardiseConfigName(name) && c.cached == VNone
      ensures instance == c
    {
      if instance == null {
        instance := new Config(name);
      }
      c := instance;
    }
  }
}
