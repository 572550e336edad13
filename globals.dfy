/**
 * The font and image dictionary loaders of src/globals.rs.  Each reads a
 * manifest of names and asset paths and folds one coffee task per entry into
 * a task that yields the dictionary.  The font loader also copies every font
 * file into a fixed slot of the static buffer `FONT_BYTES`, four slots of
 * 60000 bytes each, because coffee's fonts borrow their bytes for ever.
 *
 * A `HashMap` manifest is iterated in an unspecified order; the model takes
 * the entries in the order the deserialiser hands them over.  Reading files,
 * the JSON manifests and coffee's `Font::load_from_bytes` and `Image::load`
 * are parameters.
 */
module Globals {
  import opened Wrappers
  import opened Ints
  import opened Load
  import opened Loading

  const FONT_DICT_LOAD_ID := "font_dict"
  const IMAGE_DICT_LOAD_ID := "image_dict"
  const FONT_VEC_SIZE: nat := 4
  const FONT_FILE_SIZE: nat := 60000
  /** `stringify!(self.path)`, recorded in the file-load errors. */
  const PathVarName := "self.path"

  /** `FontDictError`; serde's and the file system's errors are kept as messages. */
  datatype FontDictError =
    | FontDictFileLoadError(path: string, varName: string, source: LoadError)
    | FontDictJSONLoadError(value: Json, jsonError: string)
    | FontDictFileReadError(fontPath: string, ioError: string)
    | FontDictFontSizeError(fontSize: nat, fontName: string, sizePath: string)

  /** `ImageDictError`. */
  datatype ImageDictError = ImageDictFileLoadError(path: string, varName: string, source: LoadError)

  /** The errors the loaders wrap. */
  datatype DictError = Font(fontError: FontDictError) | Image(imageError: ImageDictError) | LoadFailure(loadError: LoadError)

  /**
   * How the loaders' tasks fail: `build_task_error(e, InvalidData)` is a task
   * failing with an I/O error of kind `InvalidData` that carries `e`; the
   * tasks coffee builds fail with coffee's own errors.
   */
  datatype TaskError = InvalidData(error: DictError) | CoffeeFailed(description: string)

  datatype FontDict<F> = FontDict(fonts: map<string, F>)
  datatype ImageDict<I> = ImageDict(images: map<string, I>)

  datatype FontDictLoader = FontDictLoader(path: string)
  datatype ImageDictLoader = ImageDictLoader(path: string)

  /** The world outside the font loader. */
  datatype FontEnv<!G, F> = FontEnv(
    loadJson: string -> Result<JsonLoad, LoadError>,
    /** `from_value` into `FontDictLoaderJSON`: the (name, path) entries in iteration order. */
    parseFonts: Json -> Result<seq<(string, string)>, string>,
    readFile: string -> Result<seq<u8>, string>,
    loadFromBytes: seq<u8> -> Task<G, F, TaskError>)

  /** The combiner of every join: `dict.insert(name, value)`. */
  function Insert<T>(name: string): (T, map<string, T>) -> map<string, T>
  {
    (value: T, dict: map<string, T>) => dict[name := value]
  }

  /** The combiners of a chain insert the given names, entry by entry. */
  ghost predicate InsertsNames<W, T, E>(links: seq<Link<W, T, map<string, T>, E>>, names: seq<string>)
  {
    |links| == |names| && forall i :: 0 <= i < |links| ==> links[i].combine == Insert(names[i])
  }

  ghost predicate Distinct(names: seq<string>)
  {
    forall i, j :: 0 <= i < j < |names| ==> names[i] != names[j]
  }

  /** The names of manifest entries, in order. */
  function Names(entries: seq<(string, string)>): (r: seq<string>)
    ensures |r| == |entries| && forall i :: 0 <= i < |entries| ==> r[i] == entries[i].0
  {
    seq(|entries|, i requires 0 <= i < |entries| => entries[i].0)
  }

  /**
   * The dictionary a chain of inserts builds from its entries' values has
   * exactly the entries' names as keys and, when the names are distinct,
   * each name maps to its own entry's value.
   */
  lemma {:induction false} CombinedInserts<W, T, E>(links: seq<Link<W, T, map<string, T>, E>>, names: seq<string>, values: seq<T>)
    requires InsertsNames(links, names) && |values| == |links|
    ensures Combined(links, values, map[]).Keys == set x | x in names
    ensures Distinct(names) ==> forall i :: 0 <= i < |names| ==> Combined(links, values, map[])[names[i]] == values[i]
    decreases |links|
  {
    if links != [] {
      var n := |links| - 1;
      assert InsertsNames(links[..n], names[..n]);
      CombinedInserts(links[..n], names[..n], values[..n]);
      var prev := Combined(links[..n], values[..n], map[]);
      assert Combined(links, values, map[]) == prev[names[n] := values[n]];
      assert names == names[..n] + [names[n]];
      assert (set x | x in names) == (set x | x in names[..n]) + {names[n]};
    }
  }

  /** Four slots of 60000 bytes, the shape of `FONT_BYTES`. */
  ghost predicate SlotShape(slots: seq<seq<u8>>)
  {
    |slots| == FONT_VEC_SIZE && forall i :: 0 <= i < |slots| ==> |slots[i]| == FONT_FILE_SIZE
  }

  /** The byte copy of an accepted font into its slot: the font first, the slot's old bytes after it. */
  function CopyFont(slots: seq<seq<u8>>, index: nat, font: seq<u8>): (r: seq<seq<u8>>)
    requires index < |slots| && |font| <= |slots[index]|
    ensures |r| == |slots| && |r[index]| == |slots[index]|
    ensures r[index][..|font|] == font && r[index][|font|..] == slots[index][|font|..]
    ensures forall j :: 0 <= j < |slots| && j != index ==> r[j] == slots[j]
  {
    slots[index := font + slots[index][|font|..]]
  }

  function FailWith<G, T>(e: DictError): Task<G, T, TaskError>
  {
    Fail(InvalidData(e))
  }

  /**
   * The loop of `FontDictLoader::load` over the remaining entries, with the
   * slot `index` next and the joins so far as `links`: the buffer afterwards,
   * and either the links of the whole fold or the error the returned task
   * fails with.  A font may be as large as the slot.  A fifth font panics
   * once it is accepted: its copy, or for an empty font the `&FONT_BYTES[4]`
   * handed to `load_from_bytes`, indexes past the four slots.
   */
  function FontsFrom<G, F>(env: FontEnv<G, F>, entries: seq<(string, string)>, index: nat, slots: seq<seq<u8>>,
                           links: seq<Link<G, F, map<string, F>, TaskError>>)
    : (r: (seq<seq<u8>>, Outcome<Result<seq<Link<G, F, map<string, F>, TaskError>>, TaskError>>))
    requires SlotShape(slots)
    ensures SlotShape(r.0)
    ensures r.1.Done? && r.1.value.Ok? ==>
              var all := r.1.value.value;
              |all| == |links| + |entries| && all[..|links|] == links
              && InsertsNames(all[|links|..], Names(entries))
    decreases |entries|
  {
    if entries == [] then (slots, Done(Ok(links)))
    else
      var (name, path) := entries[0];
      match env.readFile(path)
      case Err(e) => (slots, Done(Err(InvalidData(Font(FontDictFileReadError(path, e))))))
      case Ok(font) =>
        if |font| > FONT_FILE_SIZE then (slots, Done(Err(InvalidData(Font(FontDictFontSizeError(|font|, name, path))))))
        else if index >= FONT_VEC_SIZE then (slots, Panic(IndexOutOfBounds(FONT_VEC_SIZE, index)))
        else
          var slots' := CopyFont(slots, index, font);
          var link := Link(env.loadFromBytes(slots'[index]), Insert(name));
          var r := FontsFrom(env, entries[1..], index + 1, slots', links + [link]);
          if r.1.Done? && r.1.value.Ok? then
            var all := r.1.value.value;
            assert all[..|links|] == (links + [link])[..|links|];
            assert all[|links|..][1..] == all[|links| + 1..];
            assert Names(entries)[1..] == Names(entries[1..]);
            r
          else r
  }

  /**
   * `FontDictLoader::load` on the buffer `slots`: the buffer afterwards, and
   * the task, or the panic.  Errors are not returned but folded into the task,
   * which then fails without running anything.
   */
  function FontLoadSpec<G, F>(loader: FontDictLoader, env: FontEnv<G, F>, slots: seq<seq<u8>>)
    : (r: (seq<seq<u8>>, Outcome<Task<G, FontDict<F>, TaskError>>))
    requires SlotShape(slots)
    ensures env.loadJson(loader.path).Err? ==>
              r == (slots, Done(FailWith(Font(FontDictFileLoadError(loader.path, PathVarName, env.loadJson(loader.path).error)))))
    ensures env.loadJson(loader.path).Ok? && env.loadJson(loader.path).value.loadTypeId != FONT_DICT_LOAD_ID ==>
              r == (slots, Done(FailWith(LoadFailure(LoadIdError(env.loadJson(loader.path).value.loadTypeId, FONT_DICT_LOAD_ID)))))
    ensures SlotShape(r.0)
  {
    match env.loadJson(loader.path)
    case Err(e) => (slots, Done(FailWith(Font(FontDictFileLoadError(loader.path, PathVarName, e)))))
    case Ok(json) =>
      if json.loadTypeId != FONT_DICT_LOAD_ID then
        (slots, Done(FailWith(LoadFailure(LoadIdError(json.loadTypeId, FONT_DICT_LOAD_ID)))))
      else match env.parseFonts(json.actualValue)
        case Err(e) => (slots, Done(FailWith(Font(FontDictJSONLoadError(json.actualValue, e)))))
        case Ok(entries) =>
          var (slots', folded) := FontsFrom(env, entries, 0, slots, []);
          match folded
          case Panic(m) => (slots', Panic(m))
          case Done(Err(e)) => (slots', Done(Fail(e)))
          case Done(Ok(links)) => (slots', Done(MapValue(Chain(links, map[]), (m: map<string, F>) => FontDict(m))))
  }

  /** The next entry's font is read; one larger than its slot fails the task with its size, name and path. */
  lemma OversizedFontFails<G, F>(env: FontEnv<G, F>, entries: seq<(string, string)>, index: nat, slots: seq<seq<u8>>,
                                 links: seq<Link<G, F, map<string, F>, TaskError>>)
    requires SlotShape(slots) && entries != []
    requires env.readFile(entries[0].1).Ok? && |env.readFile(entries[0].1).value| > FONT_FILE_SIZE
    ensures FontsFrom(env, entries, index, slots, links) ==
              (slots, Done(Err(InvalidData(Font(FontDictFontSizeError(|env.readFile(entries[0].1).value|, entries[0].0, entries[0].1))))))
  {
  }

  /**
   * An accepted font (at most 60000 bytes) in one of the four slots is copied
   * to the front of its slot, and `load_from_bytes` receives the whole slot.
   */
  lemma AcceptedFontFillsSlot<G, F>(env: FontEnv<G, F>, entries: seq<(string, string)>, index: nat, slots: seq<seq<u8>>,
                                    links: seq<Link<G, F, map<string, F>, TaskError>>)
    requires SlotShape(slots) && entries != [] && index < FONT_VEC_SIZE
    requires env.readFile(entries[0].1).Ok? && |env.readFile(entries[0].1).value| <= FONT_FILE_SIZE
    ensures var font := env.readFile(entries[0].1).value;
            var slots' := CopyFont(slots, index, font);
            |slots'[index]| == FONT_FILE_SIZE
            && FontsFrom(env, entries, index, slots, links) ==
               FontsFrom(env, entries[1..], index + 1, slots', links + [Link(env.loadFromBytes(slots'[index]), Insert(entries[0].0))])
  {
  }

  /** An accepted font with no slot left panics. */
  lemma FifthFontPanics<G, F>(env: FontEnv<G, F>, entries: seq<(string, string)>, slots: seq<seq<u8>>,
                              links: seq<Link<G, F, map<string, F>, TaskError>>)
    requires SlotShape(slots) && entries != []
    requires env.readFile(entries[0].1).Ok? && |env.readFile(entries[0].1).value| <= FONT_FILE_SIZE
    ensures FontsFrom(env, entries, FONT_VEC_SIZE, slots, links).1 == Panic(IndexOutOfBounds(4, 4))
  {
  }

  /**
   * When the font task succeeds, the dictionary has one entry per manifest
   * name, and with distinct names each holds the value of its own font task.
   */
  lemma {:induction false} FontDictNames<G, F>(loader: FontDictLoader, env: FontEnv<G, F>, slots: seq<seq<u8>>, w: G)
    requires SlotShape(slots)
    requires env.loadJson(loader.path).Ok? && env.loadJson(loader.path).value.loadTypeId == FONT_DICT_LOAD_ID
    requires env.parseFonts(env.loadJson(loader.path).value.actualValue).Ok?
    requires FontLoadSpec(loader, env, slots).1.Done?
    requires FontLoadSpec(loader, env, slots).1.value.run(w).1.Ok?
    ensures var entries := env.parseFonts(env.loadJson(loader.path).value.actualValue).value;
            FontLoadSpec(loader, env, slots).1.value.run(w).1.value.fonts.Keys == set x | x in Names(entries)
  {
    var entries := env.parseFonts(env.loadJson(loader.path).value.actualValue).value;
    var names := Names(entries);
    var (slots', folded) := FontsFrom(env, entries, 0, slots, []);
    var links := folded.value.value;
    assert links[0..] == links;
    ChainRun(links, map[], w);
    var (w', vs) := RunBackward(links, w);
    CombinedInserts(links, names, vs.value);
  }

  /** The rows of the two-dimensional buffer. */
  function Slots(a: array2<u8>): (r: seq<seq<u8>>)
    reads a
    ensures |r| == a.Length0
    ensures forall i :: 0 <= i < a.Length0 ==> |r[i]| == a.Length1
    ensures forall i, j :: 0 <= i < a.Length0 && 0 <= j < a.Length1 ==> r[i][j] == a[i, j]
  {
    seq(a.Length0, i requires 0 <= i < a.Length0 reads a => seq(a.Length1, j requires 0 <= j < a.Length1 reads a => a[i, j]))
  }

  /** Copies an accepted font into slot `index` of `FONT_BYTES`, byte by byte. */
  method CopyIntoSlot(fontBytes: array2<u8>, index: nat, font: seq<u8>)
    requires index < fontBytes.Length0 && |font| <= fontBytes.Length1
    modifies fontBytes
    ensures Slots(fontBytes) == CopyFont(old(Slots(fontBytes)), index, font)
  {
    ghost var before := Slots(fontBytes);
    for i := 0 to |font|
      invariant forall j, k :: 0 <= j < fontBytes.Length0 && 0 <= k < fontBytes.Length1 ==>
                  fontBytes[j, k] == if j == index && k < i then font[k] else before[j][k]
    {
      fontBytes[index, i] := font[i];
    }
    var after := CopyFont(before, index, font);
    forall j | 0 <= j < fontBytes.Length0
      ensures Slots(fontBytes)[j] == after[j]
    {
      if j == index {
        forall k | 0 <= k < fontBytes.Length1
          ensures Slots(fontBytes)[j][k] == after[j][k]
        {
          if k < |font| {
            assert after[j][..|font|][k] == font[k];
          } else {
            assert after[j][|font|..][k - |font|] == before[j][|font|..][k - |font|];
          }
        }
      }
    }
  }

  /** `FontDictLoader::load`, on the static buffer `FONT_BYTES`. */
  method LoadFonts<G, F>(loader: FontDictLoader, env: FontEnv<G, F>, fontBytes: array2<u8>)
    returns (o: Outcome<Task<G, FontDict<F>, TaskError>>)
    requires fontBytes.Length0 == FONT_VEC_SIZE && fontBytes.Length1 == FONT_FILE_SIZE
    modifies fontBytes
    ensures (Slots(fontBytes), o) == FontLoadSpec(loader, env, old(Slots(fontBytes)))
  {
    ghost var spec := FontLoadSpec(loader, env, Slots(fontBytes));
    var loaded := env.loadJson(loader.path);
    if loaded.Err? {
      return Done(FailWith(Font(FontDictFileLoadError(loader.path, PathVarName, loaded.error))));
    }
    var json := loaded.value;
    if json.loadTypeId != FONT_DICT_LOAD_ID {
      return Done(FailWith(LoadFailure(LoadIdError(json.loadTypeId, FONT_DICT_LOAD_ID))));
    }
    var parsed := env.parseFonts(json.actualValue);
    if parsed.Err? {
      return Done(FailWith(Font(FontDictJSONLoadError(json.actualValue, parsed.error))));
    }
    var entries := parsed.value;
    var fontTask: Task<G, map<string, F>, TaskError> := Pure(map[]);
    ghost var links: seq<Link<G, F, map<string, F>, TaskError>> := [];
    for index := 0 to |entries|
      invariant fontTask == Chain(links, map[])
      invariant var (s, folded) := FontsFrom(env, entries[index..], index, Slots(fontBytes), links);
                var (s', folded') := FontsFrom(env, entries, 0, old(Slots(fontBytes)), []);
                s == s' && folded == folded'
    {
      var (name, fontPath) := entries[index];
      var read := env.readFile(fontPath);
      if read.Err? {
        return Done(FailWith(Font(FontDictFileReadError(fontPath, read.error))));
      }
      var font := read.value;
      if |font| <= FONT_FILE_SIZE {
        if index >= FONT_VEC_SIZE {
          return Panic(IndexOutOfBounds(FONT_VEC_SIZE, index));
        }
        CopyIntoSlot(fontBytes, index, font);
      } else {
        return Done(FailWith(Font(FontDictFontSizeError(|font|, name, fontPath))));
      }
      var slot := Slots(fontBytes)[index];
      var link := Link(env.loadFromBytes(slot), Insert(name));
      fontTask := Join(link.task, fontTask, link.combine);
      links := links + [link];
      assert entries[index..][1..] == entries[index + 1..];
    }
    return Done(MapValue(fontTask, (m: map<string, F>) => FontDict(m)));
  }

  /** The world outside the image loader. */
  datatype ImageEnv<!G, I> = ImageEnv(
    /** `load_deserializable_from_file(path, id)` into `ImageDictJSON`: the (name, path) entries in iteration order. */
    loadFile: (string, string) -> Result<seq<(string, string)>, LoadError>,
    loadImage: string -> Task<G, I, TaskError>)

  /** One join per manifest entry: `Image::load(path)` inserted under the entry's name. */
  function ImageLinks<G, I>(env: ImageEnv<G, I>, entries: seq<(string, string)>): (r: seq<Link<G, I, map<string, I>, TaskError>>)
    ensures InsertsNames(r, Names(entries))
    ensures forall i :: 0 <= i < |entries| ==> r[i].task == env.loadImage(entries[i].1)
  {
    seq(|entries|, i requires 0 <= i < |entries| => Link(env.loadImage(entries[i].1), Insert(entries[i].0)))
  }

  /** `ImageDictLoader::load`. */
  function ImageLoadSpec<G, I>(loader: ImageDictLoader, env: ImageEnv<G, I>): (r: Task<G, ImageDict<I>, TaskError>)
    ensures env.loadFile(loader.path, IMAGE_DICT_LOAD_ID).Err? ==>
              r == FailWith(Image(ImageDictFileLoadError(loader.path, PathVarName, env.loadFile(loader.path, IMAGE_DICT_LOAD_ID).error)))
  {
    match env.loadFile(loader.path, IMAGE_DICT_LOAD_ID)
    case Err(e) => FailWith(Image(ImageDictFileLoadError(loader.path, PathVarName, e)))
    case Ok(entries) => MapValue(Chain(ImageLinks(env, entries), map[]), (m: map<string, I>) => ImageDict(m))
  }

  /** The loop of `ImageDictLoader::load`, folding one join per entry into `image_task`. */
  method LoadImages<G, I>(loader: ImageDictLoader, env: ImageEnv<G, I>) returns (t: Task<G, ImageDict<I>, TaskError>)
    ensures t == ImageLoadSpec(loader, env)
  {
    var loaded := env.loadFile(loader.path, IMAGE_DICT_LOAD_ID);
    if loaded.Err? {
      return FailWith(Image(ImageDictFileLoadError(loader.path, PathVarName, loaded.error)));
    }
    var entries := loaded.value;
    var imageTask: Task<G, map<string, I>, TaskError> := Pure(map[]);
    for i := 0 to |entries|
      invariant imageTask == Chain(ImageLinks(env, entries[..i]), map[])
    {
      var (name, path) := entries[i];
      imageTask := Join(env.loadImage(path), imageTask, Insert(name));
      assert ImageLinks(env, entries[..i + 1])[..i] == ImageLinks(env, entries[..i]);
    }
    assert entries[..|entries|] == entries;
    return MapValue(imageTask, (m: map<string, I>) => ImageDict(m));
  }

  /**
   * When the image task succeeds, the dictionary has one entry per manifest
   * name, and with distinct names each holds the image its own task loaded.
   */
  lemma ImageDictNames<G, I>(loader: ImageDictLoader, env: ImageEnv<G, I>, w: G)
    requires env.loadFile(loader.path, IMAGE_DICT_LOAD_ID).Ok?
    requires ImageLoadSpec(loader, env).run(w).1.Ok?
    ensures var entries := env.loadFile(loader.path, IMAGE_DICT_LOAD_ID).value;
            ImageLoadSpec(loader, env).run(w).1.value.images.Keys == set x | x in Names(entries)
  {
    var entries := env.loadFile(loader.path, IMAGE_DICT_LOAD_ID).value;
    var names := Names(entries);
    var links := ImageLinks(env, entries);
    ChainRun(links, map[], w);
    var (w', vs) := RunBackward(links, w);
    CombinedInserts(links, names, vs.value);
  }
}
