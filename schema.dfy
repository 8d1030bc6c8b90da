/** flux_mod/nodes.py, `INPUT_TYPES` of the three checkpoint loaders: the
    base loader builds the "required" input dict; the Mini loader adds the
    lite-patch input to it with `|=`, and the Chroma loader deletes the
    guidance input with `del`. */
module Schema {
  import opened Common
  import opened Dicts
  import Nodes

  /** An input slot offered as a drop-down of the listed choices. */
  datatype InputSpec = Choice(options: seq<string>)

  /** `folder_paths`: for every registered folder name, the file names
      `get_filename_list` returns for it. */
  type Folders = map<string, seq<string>>

  /** The names the base loader offers as `ckpt_name`: the checkpoints,
      followed by the GGUF diffusion models when that folder is registered. */
  function CheckpointPaths(folders: Folders): (paths: seq<string>)
    requires "checkpoints" in folders
    ensures "unet_gguf" !in folders ==> paths == folders["checkpoints"]
    ensures "unet_gguf" in folders ==> |paths| == |folders["checkpoints"]| + |folders["unet_gguf"]|
    ensures "unet_gguf" in folders ==>
      paths[..|folders["checkpoints"]|] == folders["checkpoints"] &&
      paths[|folders["checkpoints"]|..] == folders["unet_gguf"]
    ensures forall p :: p in paths <==>
      p in folders["checkpoints"] || ("unet_gguf" in folders && p in folders["unet_gguf"])
  {
    if "unet_gguf" in folders then folders["checkpoints"] + folders["unet_gguf"] else folders["checkpoints"]
  }

  /** `FluxModCheckpointLoader.INPUT_TYPES()["required"]`: the checkpoint,
      the guidance file and the quantisation choice, in that order. */
  function BaseRequired(folders: Folders): (r: Dict<InputSpec>)
    requires "checkpoints" in folders
    ensures r.Valid()
    ensures r.keys == ["ckpt_name", "guidance_name", "quant_mode"]
    ensures r.entries["ckpt_name"] == Choice(CheckpointPaths(folders))
    ensures r.entries["guidance_name"] == Choice(folders["checkpoints"])
    ensures r.entries["quant_mode"] == Choice(Nodes.QuantModes)
  {
    Dict(["ckpt_name", "guidance_name", "quant_mode"],
         map["ckpt_name" := Choice(CheckpointPaths(folders)),
             "guidance_name" := Choice(folders["checkpoints"]),
             "quant_mode" := Choice(Nodes.QuantModes)])
  }

  /** The Mini loader's required inputs: the base ones followed by the
      lite-patch checkpoint, every base input unchanged. */
  function MiniRequired(folders: Folders): (r: Dict<InputSpec>)
    requires "checkpoints" in folders
    ensures r.Valid()
    ensures r.keys == BaseRequired(folders).keys + ["lite_patch_ckpt_name"]
    ensures r.entries["lite_patch_ckpt_name"] == Choice(folders["checkpoints"])
    ensures forall k :: k in BaseRequired(folders).entries ==> r.entries[k] == BaseRequired(folders).entries[k]
  {
    var base := BaseRequired(folders);
    assert "lite_patch_ckpt_name" !in base.keys;
    base.Put("lite_patch_ckpt_name", Choice(folders["checkpoints"]))
  }

  /** The Chroma loader's required inputs: the base ones without the
      guidance file, the others unchanged and in the same order. */
  function ChromaRequired(folders: Folders): (r: Dict<InputSpec>)
    requires "checkpoints" in folders
    ensures r.Valid()
    ensures r.keys == ["ckpt_name", "quant_mode"]
    ensures "guidance_name" !in r.entries
    ensures forall k :: k in r.entries ==> r.entries[k] == BaseRequired(folders).entries[k]
  {
    var base := BaseRequired(folders);
    var keys := base.keys;
    assert IndexOf(keys, "guidance_name") == 1 by {
      assert keys[0] != "guidance_name";
    }
    assert keys[..1] == ["ckpt_name"] && keys[2..] == ["quant_mode"];
    base.Remove("guidance_name")
  }

  /** Every `quant_mode` the drop-down offers is one `load_checkpoint` can
      look up, so the KeyError is raised only for a value sent around the
      drop-down. */
  lemma OfferedQuantModesAccepted(folders: Folders, mode: string)
    requires "checkpoints" in folders
    requires mode in BaseRequired(folders).entries["quant_mode"].options
    ensures Nodes.QuantDtype(mode).Ok?
  {
  }

  /** The dict `INPUT_TYPES` returns, of which only "required" is modelled;
      the subclasses edit it in place. */
  class InputTypes {
    var required: Dict<InputSpec>

    /** `FluxModCheckpointLoader.INPUT_TYPES()` */
    constructor Base(folders: Folders)
      requires "checkpoints" in folders
      ensures required == BaseRequired(folders)
    {
      required := BaseRequired(folders);
    }

    /** `result["required"] |= {key: spec}` */
    method Merge(key: string, spec: InputSpec)
      requires required.Valid()
      modifies this
      ensures required == old(required).Put(key, spec)
    {
      required := required.Put(key, spec);
    }

    /** `del result["required"][key]`: a missing key raises KeyError and
      leaves the dict as it was. */
    method Delete(key: string) returns (r: Result<()>)
      requires required.Valid()
      modifies this
      ensures r.Ok? <==> key in old(required).entries
      ensures r.Err? ==> r.error == KeyError(key) && required == old(required)
      ensures r.Ok? ==> required == old(required).Remove(key)
    {
      if key !in required.entries {
        return Err(KeyError(key));
      }
      required := required.Remove(key);
      r := Ok(());
    }
  }

  /** `FluxModCheckpointLoaderMini.INPUT_TYPES()` */
  method MiniInputTypes(folders: Folders) returns (result: InputTypes)
    requires "checkpoints" in folders
    ensures result.required == MiniRequired(folders)
  {
    result := new InputTypes.Base(folders);
    result.Merge("lite_patch_ckpt_name", Choice(folders["checkpoints"]));
  }

  /** `ChromaCheckpointLoader.INPUT_TYPES()`: the guidance input is always
      there to delete, so the deletion never raises. */
  method ChromaInputTypes(folders: Folders) returns (result: InputTypes)
    requires "checkpoints" in folders
    ensures result.required == ChromaRequired(folders)
  {
    result := new InputTypes.Base(folders);
    var deleted := result.Delete("guidance_name");
    assert deleted.Ok?;
  }
}
