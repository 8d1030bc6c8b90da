/** flux_mod/nodes.py: the decisions the FluxMod nodes take before handing
    over to the host — which dtype a quantisation choice names, which folder
    a checkpoint is looked up in, which layers the skip-layer node stores on
    the model, and whether sampling runs under autocast and at which dtype. */
module Nodes {
  import opened Common
  import opened LayerList

  /** The host facts `using_scaled_fp8` consults: the `--fast` command-line
      flag and the devices `model_management` reports as supporting fp8
      compute. */
  datatype Host = Host(fast: bool, fp8ComputeDevices: set<string>)

  /** The diffusion network of a loaded model; only the two lists the
      skip-layer node stores are modelled. */
  class DiffusionModel {
    var skipDit: seq<int>
    var skipMmdit: seq<int>

    constructor (skipDit: seq<int>, skipMmdit: seq<int>)
      ensures this.skipDit == skipDit && this.skipMmdit == skipMmdit
    {
      this.skipDit := skipDit;
      this.skipMmdit := skipMmdit;
    }
  }

  /** The host's model patcher, with its load device, the `scaled_fp8` flag of
      the model's configuration, and the diffusion network it wraps. */
  class ModelPatcher {
    const loadDevice: string
    const scaledFp8: bool
    const diffusionModel: DiffusionModel

    constructor (loadDevice: string, scaledFp8: bool, diffusionModel: DiffusionModel)
      ensures this.loadDevice == loadDevice && this.scaledFp8 == scaledFp8
      ensures this.diffusionModel == diffusionModel
    {
      this.loadDevice := loadDevice;
      this.scaledFp8 := scaledFp8;
      this.diffusionModel := diffusionModel;
    }
  }

  /** `using_scaled_fp8(model_patcher)`: the model's `scaled_fp8`
      configuration alone decides unless the host runs with `--fast`; then
      an fp8-capable load device is enough as well. */
  function UsingScaledFp8(host: Host, patcher: ModelPatcher): (r: bool)
    ensures patcher.scaledFp8 ==> r
    ensures !host.fast ==> (r <==> patcher.scaledFp8)
    ensures host.fast && !patcher.scaledFp8 ==> (r <==> patcher.loadDevice in host.fp8ComputeDevices)
  {
    (host.fast && patcher.loadDevice in host.fp8ComputeDevices) || patcher.scaledFp8
  }

  // ---------------------------------------------------------------------
  // FluxModCheckpointLoader.load_checkpoint

  /** The `quant_mode` choices, in the order the node offers them. */
  const QuantModes: seq<string> := ["bf16", "float8_e4m3fn (8 bit)", "float8_e5m2 (also 8 bit)"]

  /** The dtype a `quant_mode` choice stands for, by the inverse table. */
  function QuantModeName(d: DType): (name: Option<string>)
    ensures name.Some? <==> d in {BFloat16, Float8E4M3FN, Float8E5M2}
    ensures name.Some? ==> name.value in QuantModes
  {
    match d
    case BFloat16 => Some(QuantModes[0])
    case Float8E4M3FN => Some(QuantModes[1])
    case Float8E5M2 => Some(QuantModes[2])
    case _ => None
  }

  /** `dtypes[quant_mode]`: an unknown choice raises KeyError. */
  function QuantDtype(quantMode: string): (r: Result<DType>)
    ensures r.Ok? <==> quantMode in QuantModes
    ensures r.Err? ==> r.error == KeyError(quantMode)
    ensures r.Ok? ==> QuantModeName(r.value) == Some(quantMode)
  {
    if quantMode == "bf16" then Ok(BFloat16)
    else if quantMode == "float8_e4m3fn (8 bit)" then Ok(Float8E4M3FN)
    else if quantMode == "float8_e5m2 (also 8 bit)" then Ok(Float8E5M2)
    else Err(KeyError(quantMode))
  }

  /** The table and its inverse agree: every dtype the loader can quantise
      to has exactly one name, and that name selects it. */
  lemma QuantDtypeRoundTrip(d: DType)
    requires QuantModeName(d).Some?
    ensures QuantDtype(QuantModeName(d).value) == Ok(d)
  {
  }

  /** Each of the three choices names its own dtype. */
  lemma QuantDtypeTable()
    ensures QuantDtype("bf16") == Ok(BFloat16)
    ensures QuantDtype("float8_e4m3fn (8 bit)") == Ok(Float8E4M3FN)
    ensures QuantDtype("float8_e5m2 (also 8 bit)") == Ok(Float8E5M2)
  {
    QuantDtypeRoundTrip(BFloat16);
    QuantDtypeRoundTrip(Float8E4M3FN);
    QuantDtypeRoundTrip(Float8E5M2);
  }

  /** `str.lower()` on one character, for ASCII letters. */
  function LowerAscii(c: char): char {
    if 'A' <= c <= 'Z' then (c as int + 32) as char else c
  }

  /** `c` and `d` are the same letter up to ASCII case, or the same character. */
  predicate SameIgnoringCase(c: char, d: char) {
    c == d || ('A' <= c <= 'Z' && d == (c as int + 32) as char) || ('A' <= d <= 'Z' && c == (d as int + 32) as char)
  }

  /** `s.endswith(suffix)` */
  predicate EndsWith(s: string, suffix: string) {
    |suffix| <= |s| && s[|s| - |suffix|..] == suffix
  }

  /** `ckpt_name.lower().endswith(".gguf")`. Lowering ASCII letters only is
      exact here: no other character lowers to '.', 'g', 'u' or 'f', nor to
      a string ending in one of them. */
  function IsGguf(ckptName: string): (r: bool)
    ensures r <==> (|ckptName| >= 5 &&
                    forall i :: 0 <= i < 5 ==> SameIgnoringCase(ckptName[|ckptName| - 5 + i], ".gguf"[i]))
  {
    var lowered := seq(|ckptName|, i requires 0 <= i < |ckptName| => LowerAscii(ckptName[i]));
    assert |ckptName| >= 5 ==> forall i :: 0 <= i < 5 ==>
      (lowered[|ckptName| - 5 + i] == ".gguf"[i] <==> SameIgnoringCase(ckptName[|ckptName| - 5 + i], ".gguf"[i]));
    EndsWith(lowered, ".gguf")
  }

  /** `folder_paths.get_full_path(folder, name)`, kept symbolic. */
  datatype FullPath = FullPath(folder: string, name: string)

  /** The keyword arguments `load_checkpoint` prepares for `load_flux_mod`. */
  datatype LoadArgs = LoadArgs(
    modelPath: FullPath,
    timestepGuidancePath: Option<FullPath>,
    linearDtypes: DType,
    litePatchPath: Option<FullPath>,
    isGguf: bool)

  /** `FluxModCheckpointLoader.load_checkpoint` up to the `load_flux_mod`
      call: a `.gguf` checkpoint (any letter case) is looked up among the
      "unet_gguf" models, any other among the "checkpoints"; the guidance
      and lite-patch files, when named, among the "checkpoints"; the
      `quant_mode` choice selects the dtype of the linear layers, and an
      unknown choice raises KeyError. */
  function LoadCheckpoint(ckptName: string, quantMode: string, guidanceName: Option<string>,
                          litePatchCkptName: Option<string>): (r: Result<LoadArgs>)
    ensures r.Ok? <==> quantMode in QuantModes
    ensures r.Err? ==> r.error == KeyError(quantMode)
    ensures r.Ok? ==> r.value.isGguf == IsGguf(ckptName)
    ensures r.Ok? ==> r.value.modelPath.name == ckptName
    ensures r.Ok? ==> (r.value.modelPath.folder == "unet_gguf" <==> IsGguf(ckptName))
    ensures r.Ok? ==> r.value.modelPath.folder in {"unet_gguf", "checkpoints"}
    ensures r.Ok? ==> (r.value.timestepGuidancePath.None? <==> guidanceName.None?)
    ensures r.Ok? && guidanceName.Some? ==>
      r.value.timestepGuidancePath == Some(FullPath("checkpoints", guidanceName.value))
    ensures r.Ok? ==> (r.value.litePatchPath.None? <==> litePatchCkptName.None?)
    ensures r.Ok? && litePatchCkptName.Some? ==>
      r.value.litePatchPath == Some(FullPath("checkpoints", litePatchCkptName.value))
    ensures r.Ok? ==> QuantModeName(r.value.linearDtypes) == Some(quantMode)
  {
    var isGguf := IsGguf(ckptName);
    var ckptPath := FullPath(if isGguf then "unet_gguf" else "checkpoints", ckptName);
    var guidancePath := if guidanceName.Some? then Some(FullPath("checkpoints", guidanceName.value)) else None;
    var litePatchPath := if litePatchCkptName.Some? then Some(FullPath("checkpoints", litePatchCkptName.value)) else None;
    match QuantDtype(quantMode)
    case Err(e) => Err(e)
    case Ok(d) => Ok(LoadArgs(ckptPath, guidancePath, d, litePatchPath, isGguf))
  }

  // ---------------------------------------------------------------------
  // SkipLayerForward.skip_layer

  /** `skip_layer`: both strings are parsed, the MMDiT list first, before
      the model is touched; on success the diffusion model's `skip_dit` and
      `skip_mmdit` are set to the parsed lists and the same model is
      returned; the first rejected piece raises and leaves the model as it
      was. */
  method SkipLayer(model: ModelPatcher, skipMmditLayers: string, skipDitLayers: string)
    returns (r: Result<ModelPatcher>)
    modifies model.diffusionModel
    ensures r.Ok? <==> ParseLayerList(skipMmditLayers).Ok? && ParseLayerList(skipDitLayers).Ok?
    ensures r.Ok? ==> r.value == model
    ensures r.Ok? ==> model.diffusionModel.skipDit == ParseLayerList(skipDitLayers).value
    ensures r.Ok? ==> model.diffusionModel.skipMmdit == ParseLayerList(skipMmditLayers).value
    ensures ParseLayerList(skipMmditLayers).Err? ==> r == Err(ParseLayerList(skipMmditLayers).error)
    ensures ParseLayerList(skipMmditLayers).Ok? && ParseLayerList(skipDitLayers).Err? ==>
      r == Err(ParseLayerList(skipDitLayers).error)
    ensures r.Err? ==> unchanged(model.diffusionModel)
  {
    var mmdit := ParseLayerList(skipMmditLayers);
    if mmdit.Err? {
      return Err(mmdit.error);
    }
    var dit := ParseLayerList(skipDitLayers);
    if dit.Err? {
      return Err(dit.error);
    }
    model.diffusionModel.skipDit := dit.value;
    model.diffusionModel.skipMmdit := mmdit.value;
    r := Ok(model);
  }

  // ---------------------------------------------------------------------
  // KSamplerMod.sample and FluxModSamplerWrapperNode.go

  /** The `activation_casting` choices both sampling nodes offer. */
  const ActivationChoices: seq<string> := ["bf16", "fp16"]

  /** How the host sampler gets called: directly, or inside
      `torch.autocast(device_type, dtype)`. */
  datatype Dispatch = Direct | Autocast(deviceType: string, dtype: DType)

  /** `KSamplerMod.sample`: with scaled fp8 in use the sampler is called
      directly and the casting choice is never looked at; otherwise it runs
      under CUDA autocast at the chosen dtype, and an unknown choice raises
      KeyError. */
  function Sample(host: Host, model: ModelPatcher, activationCasting: string): (r: Result<Dispatch>)
    ensures UsingScaledFp8(host, model) ==> r == Ok(Direct)
    ensures !UsingScaledFp8(host, model) ==> (r.Ok? <==> activationCasting in ActivationChoices)
    ensures r.Err? ==> r.error == KeyError(activationCasting)
    ensures !UsingScaledFp8(host, model) && activationCasting == "bf16" ==> r == Ok(Autocast("cuda", BFloat16))
    ensures !UsingScaledFp8(host, model) && activationCasting == "fp16" ==> r == Ok(Autocast("cuda", Float16))
    ensures r.Ok? && r.value.Autocast? ==> r.value.deviceType == "cuda"
    ensures r.Ok? && r.value.Autocast? ==>
      (r.value.dtype == BFloat16 <==> activationCasting == "bf16") &&
      (r.value.dtype == Float16 <==> activationCasting == "fp16")
  {
    if UsingScaledFp8(host, model) then Ok(Direct)
    else if activationCasting == "bf16" then Ok(Autocast("cuda", BFloat16))
    else if activationCasting == "fp16" then Ok(Autocast("cuda", Float16))
    else Err(KeyError(activationCasting))
  }

  /** The dtype `go` picks: bfloat16 for "bf16", float16 for every other string. */
  function WrapperDtype(activationCasting: string): (d: DType)
    ensures d == BFloat16 <==> activationCasting == "bf16"
    ensures d in {BFloat16, Float16}
  {
    if activationCasting == "bf16" then BFloat16 else Float16
  }

  /** A sampler's `sampler_function`: one the host provides, or the wrapper
      `go` builds around another sampler's function with its chosen dtype. */
  datatype SamplerFunction =
    | HostSampler(name: string)
    | FluxModWrapper(inner: SamplerFunction, dtype: DType)

  /** `comfy.samplers.KSAMPLER`: a sampler function with its options, kept opaque. */
  datatype KSampler = KSampler(samplerFunction: SamplerFunction, extraOptions: map<string, string>,
                               inpaintOptions: map<string, string>)

  /** `FluxModSamplerWrapperNode.go`: a sampler whose function wraps the
      given one, with the given sampler's options carried over. */
  function Go(sampler: KSampler, activationCasting: string): (r: KSampler)
    ensures r.samplerFunction.FluxModWrapper? && r.samplerFunction.inner == sampler.samplerFunction
    ensures r.samplerFunction.dtype == WrapperDtype(activationCasting)
    ensures r.extraOptions == sampler.extraOptions && r.inpaintOptions == sampler.inpaintOptions
  {
    KSampler(FluxModWrapper(sampler.samplerFunction, WrapperDtype(activationCasting)),
             sampler.extraOptions, sampler.inpaintOptions)
  }

  /** The autocast contexts entered, outermost first, before a call to `f`
      reaches the host's sampler, on a host whose torch device has type
      `deviceType`. A wrapper enters none when scaled fp8 is in use for the
      patcher of the model it is called with; every context entered is an
      autocast on that device, at most one per wrapper. */
  function AutocastTrace(f: SamplerFunction, host: Host, patcher: ModelPatcher, deviceType: string): (r: seq<Dispatch>)
    ensures |r| <= Depth(f)
    ensures forall i :: 0 <= i < |r| ==> r[i].Autocast? && r[i].deviceType == deviceType
  {
    match f
    case HostSampler(_) => []
    case FluxModWrapper(inner, d) =>
      (if UsingScaledFp8(host, patcher) then [] else [Autocast(deviceType, d)])
        + AutocastTrace(inner, host, patcher, deviceType)
  }

  /** Number of FluxMod wrappers stacked on the host sampler. */
  function Depth(f: SamplerFunction): nat {
    match f
    case HostSampler(_) => 0
    case FluxModWrapper(inner, _) => 1 + Depth(inner)
  }

  /** The dtypes the stacked wrappers were built with, outermost first. */
  function WrapperDtypes(f: SamplerFunction): (ds: seq<DType>)
    ensures |ds| == Depth(f)
  {
    match f
    case HostSampler(_) => []
    case FluxModWrapper(inner, d) => [d] + WrapperDtypes(inner)
  }

  /** With scaled fp8 in use, however many wrappers are stacked, the host
      sampler is reached without any autocast; otherwise every wrapper
      enters exactly one autocast, in stacking order: the i-th context is
      entered by the i-th wrapper from the outside, at that wrapper's
      dtype. */
  lemma {:induction false} AutocastTraceDtypes(f: SamplerFunction, host: Host, patcher: ModelPatcher, deviceType: string)
    ensures UsingScaledFp8(host, patcher) ==> AutocastTrace(f, host, patcher, deviceType) == []
    ensures !UsingScaledFp8(host, patcher) ==> |AutocastTrace(f, host, patcher, deviceType)| == Depth(f)
    ensures !UsingScaledFp8(host, patcher) ==> forall i :: 0 <= i < Depth(f) ==>
      AutocastTrace(f, host, patcher, deviceType)[i] == Autocast(deviceType, WrapperDtypes(f)[i])
  {
    match f
    case HostSampler(_) =>
    case FluxModWrapper(inner, d) =>
      AutocastTraceDtypes(inner, host, patcher, deviceType);
      if !UsingScaledFp8(host, patcher) {
        var trace, ds := AutocastTrace(f, host, patcher, deviceType), WrapperDtypes(f);
        forall i | 1 <= i < Depth(f)
          ensures trace[i] == Autocast(deviceType, ds[i])
        {
          assert trace[i] == AutocastTrace(inner, host, patcher, deviceType)[i - 1];
          assert ds[i] == WrapperDtypes(inner)[i - 1];
        }
      }
  }

  /** Wrapping a host sampler once: the wrapped sampler runs directly
      exactly when scaled fp8 is in use, and under a single autocast at the
      wrapper's dtype otherwise. */
  lemma GoDispatch(sampler: KSampler, activationCasting: string, host: Host, patcher: ModelPatcher, deviceType: string)
    requires sampler.samplerFunction.HostSampler?
    ensures AutocastTrace(Go(sampler, activationCasting).samplerFunction, host, patcher, deviceType) ==
      if UsingScaledFp8(host, patcher) then [] else [Autocast(deviceType, WrapperDtype(activationCasting))]
  {
  }

  /** The two nodes agree on the offered choices: on a CUDA device, a
      wrapped host sampler enters the same autocast `sample` does, or none
      when `sample` calls directly. When scaled fp8 is not in use, any
      other string makes `sample` raise KeyError while the wrapper uses
      float16. */
  lemma SampleAndWrapperAgree(host: Host, patcher: ModelPatcher, activationCasting: string, name: string)
    ensures activationCasting in ActivationChoices ==>
      var trace := AutocastTrace(FluxModWrapper(HostSampler(name), WrapperDtype(activationCasting)), host, patcher, "cuda");
      Sample(host, patcher, activationCasting) == Ok(if trace == [] then Direct else trace[0])
    ensures activationCasting !in ActivationChoices && !UsingScaledFp8(host, patcher) ==>
      Sample(host, patcher, activationCasting).Err? && WrapperDtype(activationCasting) == Float16
  {
  }
}
