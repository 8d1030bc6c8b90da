# ComfyUI FluxMod — a Dafny model of the loader and node logic

ComfyUI_FluxMod adds nodes to the ComfyUI host that load a "FluxMod" Flux
checkpoint, prune its layers and sample with it. Most of the repository is
glue to the host. This project models the part that decides something on its
own:

- **Loader** (`flux_mod/loader.py`):
  - `load_selected_keys` copies the tensors of a checkpoint archive, in the
    order `f.keys()` yields the names, skipping every key that contains an
    exclusion keyword.
  - `load_flux_mod` uses it with four fixed keywords.
  - `cast_layers` walks a module tree. It converts every strict descendant
    of a given layer type, as a whole, to a target dtype, and recurses into
    every other child.
  - `extra_conds` supplies the guidance condition, 3.5 by default.
- **Nodes** (`flux_mod/nodes.py`):
  - `using_scaled_fp8` is the scaled-fp8 test.
  - The `quant_mode` and `activation_casting` tables pick dtypes.
  - The `.gguf` suffix test picks the checkpoint folder.
  - `skip_layer` parses the two comma-separated layer lists and stores them
    on the diffusion model.
  - `KSamplerMod.sample` and the sampler wrapper decide whether sampling
    runs under autocast, and at which dtype.
  - The Mini and Chroma loaders edit the inherited input schema in place.

Modules:

| file | module | what |
|---|---|---|
| common.dfy | `Common` | `Result`/`Option`, the `KeyError`/`ValueError` exceptions, torch dtypes |
| dicts.dfy | `Dicts` | Python `dict` with string keys: a map plus its insertion order |
| loader.dfy | `Loader` | substring test, keyword filter, `load_selected_keys`, base state dict, `extra_conds` |
| layer_cast.dfy | `LayerCast` | module trees as values (`Tree`) and as mutable objects (`Module`); `.to` and `cast_layers` |
| layer_list.dfy | `LayerList` | `re.split(r"\s*,\s*")` and Python `int()`; a printer and the round trip |
| nodes.dfy | `Nodes` | scaled-fp8 test, dtype tables, `.gguf` choice, `skip_layer`, sampling dispatch |
| schema.dfy | `Schema` | `INPUT_TYPES` of the three checkpoint loaders |

How the source's state is represented:

- Tensors are opaque values of a type parameter `V`.
- A checkpoint archive is a `Dict<V>` whose key order is the order
  `f.keys()` yields the names; the archive format may list them sorted
  rather than as they were written.
- A module tree is a class `Module`:
  - Its class names are a set, so `isinstance(m, L)` is `L in m.classes`.
  - Its children are fixed.
  - Its parameter dtype is a mutable field.
- The walk on the object tree is proved against the value function
  `LayerCast.Cast`, and the properties of the walk are proved about that
  function.
- `SkipLayer` assigns fields of a `DiffusionModel` object.
- The schema edits reassign the `required` dict of an `InputTypes` object.
- Host facts are parameters:
  - the `--fast` flag;
  - the set of devices that support fp8 compute;
  - the registered model folders and their file lists;
  - the torch device type.

## Model

| member | source | states |
|---|---|---|
| Dicts.Dict.Put | flux_mod/loader.py:55 | `d[k] = v`: `k` now maps to `v`; every other key keeps its presence and value; an existing key keeps its position and a new key is appended to the iteration order |
| Dicts.Empty | flux_mod/loader.py:51 | `tensors = {}` is a well-formed dict with no keys |
| Dicts.Dict.Remove | flux_mod/nodes.py:78 | `del d[k]` on a present key: `k` is gone; every other key keeps its value; the order is the old order with the position of `k` cut out |
| Loader.Contains | flux_mod/loader.py:54 | `keyword in key` holds exactly when the keyword occurs at some position of the key |
| Loader.Excluded | flux_mod/loader.py:54 | the `any(...)` test is false for an empty keyword list and true for every key once the empty keyword is in the list |
| Loader.ExcludedMeans | flux_mod/loader.py:54 | the `any(...)` test holds exactly when some keyword of the list is a substring of the key |
| Loader.Kept | flux_mod/loader.py:53-55 | the names that survive the filter are exactly the file's names that contain no keyword |
| Loader.KeptDistinct | flux_mod/loader.py:53-55 | filtering a repetition-free key list leaves it repetition-free |
| Loader.KeptNoExclusions | flux_mod/loader.py:40-56 | with no exclusion keyword every name is kept, in order |
| Loader.KeptEmptyKeyword | flux_mod/loader.py:54 | the empty keyword excludes every key |
| Loader.KeptStep | flux_mod/loader.py:53-55 | one loop step of the filter: the next name is appended exactly when no keyword excludes it, and it was not already kept |
| Loader.LoadSelectedKeys | flux_mod/loader.py:40-56 | the result holds exactly the file's keys with no keyword as a substring, in the order `f.keys()` yields them, each with the file's tensor |
| Loader.LoadAllKeys | flux_mod/loader.py:40-56 | with the default empty exclusion list the result is the whole archive, in the same order |
| Loader.FluxModExcludedIff | flux_mod/loader.py:72 | the four-keyword exclusion holds exactly when the name contains "mod", "time_in", "guidance_in" or "vector_in" |
| Loader.LoadBaseStateDict | flux_mod/loader.py:72 | no key of the base state dict contains any of the four names, every other key of the checkpoint is kept with its tensor, and nothing else is: the keys are the checkpoint's non-excluded keys in `f.keys()` order |
| Loader.ExtraConds | flux_mod/loader.py:34-37 | 'guidance' is set to the caller's "guidance" value, or to 3.5 when there is none; every other condition of the base class is kept |
| LayerCast.ToDType | flux_mod/loader.py:63 | `.to(dtype=d)` gives the module dtype `d` and keeps its classes and number of children |
| LayerCast.ToDTypeAt | flux_mod/loader.py:63 | `.to` converts every submodule, at every depth |
| LayerCast.ToDTypeShapeAndIdempotent | flux_mod/loader.py:63 | `.to` keeps the tree's shape, and converting twice is converting once |
| LayerCast.Cast | flux_mod/loader.py:59-66 | the walk never converts the module it is called on: the root keeps its classes, its dtype and its number of children |
| LayerCast.CastChild | flux_mod/loader.py:60-66 | one loop step keeps the child's classes and number of children, and gives the child itself dtype `d` when it is of the layer type, leaving its dtype unchanged otherwise |
| LayerCast.CastAt | flux_mod/loader.py:59-66 | after the walk, every submodule keeps its classes and child count; its dtype is the target when it or an ancestor strictly below the root is of the layer type, and is unchanged otherwise; so the root keeps its dtype |
| LayerCast.CastMatched | flux_mod/loader.py:60-63 | a strict descendant of the layer type ends up as its whole original subtree converted, without being descended into |
| LayerCast.CastShape | flux_mod/loader.py:59-66 | the walk keeps the tree's shape and child order |
| LayerCast.CastIdempotent | flux_mod/loader.py:59-66 | walking twice equals walking once |
| LayerCast.Module.To | flux_mod/loader.py:63 | converting a module object in place leaves it with the value `ToDType` of its old value |
| LayerCast.Module.CastChildAt | flux_mod/loader.py:61-66 | one iteration of the walk: a child of the layer type ends up converted as a whole, any other child ends up walked, and its siblings are untouched |
| LayerCast.Module.CastLayers | flux_mod/loader.py:59-66 | the in-place walk leaves the object tree with the value `Cast` of its old value, and never writes the root object |
| LayerList.TrimStart | flux_mod/nodes.py:136 | removes the longest prefix of whitespace characters, and what remains is a suffix of the input |
| LayerList.TrimEnd | flux_mod/nodes.py:136 | removes the longest suffix of whitespace characters, and what remains is a prefix of the input |
| LayerList.Fields | flux_mod/nodes.py:136 | splitting at commas gives one more field than there are commas, none holding a comma, and joining them with commas gives the input back |
| LayerList.FieldsOfJoin | flux_mod/nodes.py:136 | comma-free fields joined with commas split back into the same fields |
| LayerList.SplitLayers | flux_mod/nodes.py:136 | `re.split(r"\s*,\s*")` yields one piece per comma plus one, none holding a comma |
| LayerList.SplitLayersPiece | flux_mod/nodes.py:136 | piece i is field i of the text with whitespace cut from its two sides and nothing else cut: never from the front of the first field or the back of the last, and all of the whitespace that touches a comma |
| LayerList.Unpad | flux_mod/nodes.py:136 | no whitespace that touched a comma is left on a piece, and what is left comes from the field |
| LayerList.UnpadSlice | flux_mod/nodes.py:136 | what is left of a field is a slice of it with only whitespace around it, and the first field keeps its start and the last its end |
| LayerList.UnpadSpaces | flux_mod/nodes.py:136 | a field made of a number and whitespace on either side loses exactly the whitespace that touches a comma |
| LayerList.ParseInt | flux_mod/nodes.py:137 | below CPython's digit limit (see Left out), `int(piece)` succeeds exactly when the piece, once the surrounding whitespace is removed, is an optionally signed digit group with single underscores between digits; otherwise ValueError naming the piece |
| LayerList.ParseAll | flux_mod/nodes.py:137 | the comprehension succeeds exactly when every piece parses, and then yields each piece's value in order |
| LayerList.ParseAllFirstError | flux_mod/nodes.py:137 | the error raised is the one for the first piece `int()` rejects |
| LayerList.ParseLayerList | flux_mod/nodes.py:136-137 | a parsed list has one index per comma plus one; parsing succeeds exactly when every piece is an integer literal |
| LayerList.ParseIntShow | flux_mod/nodes.py:137 | `int(str(n)) == n` for every integer, with no limit on its number of digits (see Left out) |
| LayerList.ParseIntPadded | flux_mod/nodes.py:137 | `int()` reads a printed integer back whatever whitespace it skips stands around it |
| LayerList.LiteralValue | flux_mod/nodes.py:137 | a string with no whitespace around it has a value exactly when it is an optionally signed digit group |
| LayerList.ParseIntTrimmed | flux_mod/nodes.py:137 | `int()` accepts a piece exactly when it accepts the piece with its surrounding whitespace removed, and then with the same value; so `" 07"` reads as `"07"` |
| LayerList.ParseIntSigns | flux_mod/nodes.py:137 | for a digit group `g`, `int("+" + g) == int(g)` and `int("-" + g) == -int(g)`, digit limit aside (see Left out) |
| LayerList.ParseIntLeadingZero | flux_mod/nodes.py:137 | leading zeros do not change the value: `int("0" + g) == int(g)`, digit limit aside (see Left out) |
| LayerList.ParseIntUnderscore | flux_mod/nodes.py:137 | an underscore between two digit groups is ignored: `int(a + "_" + b) == int(a + b)`, digit limit aside (see Left out) |
| LayerList.ParseIntCanonical | flux_mod/nodes.py:137 | a digit string with no underscore and no leading zero is exactly what `str` prints for the number `int()` reads from it, so that number is the one the string denotes |
| LayerList.ParsePadded | flux_mod/nodes.py:136-137 | a non-empty list written with any whitespace on either side of each comma, and with whitespace `int()` skips at the two ends, parses back to the list, digit limit aside (see Left out) |
| LayerList.ParseFormat | flux_mod/nodes.py:136-137 | parsing `", ".join(str(n) for n in xs)` gives back `xs` for every non-empty list, digit limit aside (see Left out) |
| LayerList.DefaultMmditLayers | flux_mod/nodes.py:121 | the default "10" parses to [10] |
| LayerList.DefaultDitLayers | flux_mod/nodes.py:122 | the default "3, 4" parses to [3, 4] |
| LayerList.RejectsNonNumeric | flux_mod/nodes.py:136-137 | "a,b" raises ValueError for "a" |
| LayerList.RejectsEmptyField | flux_mod/nodes.py:136-137 | "1,,2" raises ValueError for the empty middle piece |
| LayerList.RejectsEmptyString | flux_mod/nodes.py:136-137 | "" raises ValueError, so no input yields an empty list |
| Nodes.UsingScaledFp8 | flux_mod/nodes.py:14-16 | the model's `scaled_fp8` setting always suffices; without `--fast` it alone decides; with `--fast` and no `scaled_fp8`, the answer is whether the load device supports fp8 compute |
| Nodes.QuantModeName | flux_mod/nodes.py:40-44 | each of bfloat16, float8_e4m3fn and float8_e5m2 has exactly one offered `quant_mode` name, and no other dtype has one |
| Nodes.QuantDtype | flux_mod/nodes.py:40-44 | the lookup succeeds exactly on the three offered choices, picks the dtype that choice names, and raises KeyError on any other string |
| Nodes.QuantDtypeRoundTrip | flux_mod/nodes.py:40-44 | the table and its inverse agree on every dtype that has a name |
| Nodes.QuantDtypeTable | flux_mod/nodes.py:40-44 | "bf16" gives bfloat16, "float8_e4m3fn (8 bit)" gives float8_e4m3fn, and "float8_e5m2 (also 8 bit)" gives float8_e5m2 |
| Nodes.IsGguf | flux_mod/nodes.py:46 | the name is a GGUF file exactly when its last five characters are ".gguf" in any letter case |
| Nodes.LoadCheckpoint | flux_mod/nodes.py:39-57 | the model is looked up in "unet_gguf" exactly for GGUF names and in "checkpoints" otherwise; the guidance and lite-patch paths are absent exactly when their names are; the linear dtype is the one the `quant_mode` choice names; an unknown choice raises KeyError |
| Nodes.SkipLayer | flux_mod/nodes.py:134-144 | on success `skip_dit` and `skip_mmdit` hold the parsed lists and the same model is returned; the MMDiT error takes precedence; on an error the model is left untouched |
| Nodes.Sample | flux_mod/nodes.py:173-181 | with scaled fp8 the sampler is called directly and the casting choice is never looked at; otherwise it runs under CUDA autocast at bfloat16 for "bf16" and float16 for "fp16", and any other string raises KeyError |
| Nodes.WrapperDtype | flux_mod/nodes.py:207 | the wrapper picks bfloat16 exactly for "bf16", and float16 for every other string |
| Nodes.Go | flux_mod/nodes.py:206-214 | the new sampler wraps the given sampler function at the wrapper dtype and keeps its extra and inpaint options |
| Nodes.AutocastTrace | flux_mod/nodes.py:208-212 | a call through a stack of wrappers enters at most one context per wrapper, and every context it enters is an autocast on the host's device |
| Nodes.AutocastTraceDtypes | flux_mod/nodes.py:208-212 | with scaled fp8 a stack of wrappers reaches the host sampler with no autocast; otherwise each wrapper enters exactly one autocast, and the i-th context from the outside is at the dtype of the i-th wrapper from the outside |
| Nodes.GoDispatch | flux_mod/nodes.py:208-212 | a wrapped host sampler runs directly exactly when scaled fp8 is in use, and under one autocast at the wrapper's dtype otherwise |
| Nodes.SampleAndWrapperAgree | flux_mod/nodes.py:173-212 | on the offered choices, `sample` and the wrapper on a CUDA device make the same dispatch; when scaled fp8 is not in use, any other string makes `sample` raise KeyError while the wrapper uses float16 |
| Schema.CheckpointPaths | flux_mod/nodes.py:21-23 | `ckpt_name` offers the checkpoints, followed by the GGUF models exactly when that folder is registered |
| Schema.InputTypes.Base | flux_mod/nodes.py:20-30 | `INPUT_TYPES` of the base loader builds exactly the base "required" dict |
| Schema.BaseRequired | flux_mod/nodes.py:20-30 | the base loader requires `ckpt_name`, `guidance_name` and `quant_mode`, in that order, with their drop-down choices |
| Schema.OfferedQuantModesAccepted | flux_mod/nodes.py:28 | every `quant_mode` the drop-down offers is accepted by the dtype table |
| Schema.MiniRequired | flux_mod/nodes.py:65-70 | the Mini schema is the base schema with `lite_patch_ckpt_name` appended, all base inputs unchanged |
| Schema.ChromaRequired | flux_mod/nodes.py:76-79 | the Chroma schema is the base schema without `guidance_name`, the other inputs unchanged and in order |
| Schema.InputTypes.Merge | flux_mod/nodes.py:67-69 | `required |= {key: spec}` on the object's dict is the dict update `Put` |
| Schema.InputTypes.Delete | flux_mod/nodes.py:78 | `del required[key]` removes a present key; a missing key raises KeyError and leaves the dict unchanged |
| Schema.MiniInputTypes | flux_mod/nodes.py:65-70 | the in-place edit produces exactly the Mini schema |
| Schema.ChromaInputTypes | flux_mod/nodes.py:76-79 | the in-place edit produces exactly the Chroma schema, and the deletion never raises |

## Left out

- Safetensors reading (`safe_open`, `get_tensor`) and `load_torch_file` are file I/O. The archive is a `Dict` of opaque values, and the guidance-approximator file is not modelled.
- Tensor contents are not modelled. Neither are `numel` and the unused `param_count`.
- The architecture classes `FluxMod`, `Approximator` and `FluxParams` are not part of this model.
- `load_state_dict` shape checking and `.eval()` are torch calls and are not modelled.
- The final `.to(unet_dtype)` of `load_flux_mod` is a torch call and is not modelled. So is the order of the steps around `cast_layers`.
- The `load_flux_mod` call itself is not modelled. `load_checkpoint` passes `lite_patch_path` and `is_gguf`, which the loader's signature does not accept. `Nodes.LoadCheckpoint` stops at the arguments it prepares.
- ModelPatcher internals are not modelled. `model_management` device queries are replaced by the `Host` record and a device-type parameter.
- `folder_paths` is replaced by a map from folder name to file list. `get_full_path` stays symbolic (`FullPath(folder, name)`), and its `None` for a missing file is not modelled.
- Schema.CheckpointPaths requires the "checkpoints" folder to be registered, as the host always does. Without that, `get_filename_list` would raise. The same requirement sits on the other schema members.
- `torch.autocast` numerics, `common_ksampler` and the host's sampling are not modelled. Only the dispatch branch is: direct call, or autocast with device type and dtype.
- `ModelMover` is not modelled. It is not registered as a node, and its `load_checkpoint` does not match its own schema.
- `NODE_CLASS_MAPPINGS`, return types, titles, tooltips and numeric range annotations are registration metadata and are not modelled.
- The `seed`, `steps`, `cfg`, latent and conditioning inputs of `sample` are only passed through to the host sampler.
- LayerList.ParseInt: accepts ASCII digits only. Python's `int()` also accepts other Unicode decimal digits.
- LayerList.ParseInt: does not model CPython's limit on the digits of an int/str conversion (4300 by default since 3.11 and in the 3.7.14, 3.8.14, 3.9.14 and 3.10.7 security releases, changeable with `sys.set_int_max_str_digits`). Over the limit `int()` raises ValueError, and so does `str(n)`; `ParseIntShow`, `ParseIntPadded`, `ParseIntSigns`, `ParseIntLeadingZero`, `ParseIntUnderscore`, `ParseIntCanonical`, `ParsePadded` and `ParseFormat` hold only below it; leading zeros count towards the limit and underscores do not.
- Nodes.IsGguf: lowers ASCII letters only. That is exact for this suffix test, because no other character lowers to '.', 'g', 'u' or 'f', or to a string ending in one of them.
- Loader.ExtraConds: the guidance value is a real number, not a float32 tensor, so rounding is not modelled. A "guidance" argument that is not a number (None, say) makes `torch.FloatTensor` raise TypeError; the model's map of numbers cannot hold one, so that error path is not modelled.
- LayerCast.Module: only trees are modelled; `Valid()` rules out a submodule registered under two parents (tied weights). On such a graph `cast_layers` visits the shared submodule once per parent, and the model says nothing about it.
- LayerCast.Module.To: a module carries one dtype for all of its own parameters. `.to(dtype)` only touches floating-point parameters and buffers, and that distinction is not modelled.
- The diffusion model's other attributes are left out. `Nodes.DiffusionModel` holds only the two skip lists.
- Only the "required" part of `INPUT_TYPES` is modelled.
