/**
 * The bookkeeping of `src/generator.py` around the diffusion pipeline: the
 * model-name and device defaults of the constructor, which keyword
 * arguments reach the pipeline, and how generated images are named on
 * disk. The pipeline, torch and the clock are not part of this model; the
 * device probes and the time stamp are parameters.
 */
module Generator {
  import opened Text
  import opened Files
  import opened Wrappers

  // ---------------------------------------------------------------- configuration (src/config.py)

  datatype ModelConfig = ModelConfig(name: string, steps: nat, guidance: real, width: nat, height: nat)

  const Models: map<string, ModelConfig> := map[
    "flux_schnell" := ModelConfig("black-forest-labs/FLUX.1-schnell", 4, 0.0, 1024, 1024),
    "small_stable_diffusion" := ModelConfig("OFA-Sys/small-stable-diffusion-v0", 20, 7.5, 512, 512),
    "cpu_compatible" := ModelConfig("CompVis/stable-diffusion-v1-4", 10, 7.5, 512, 512)
  ]

  const DefaultModel := "cpu_compatible"
  const SaveDirectory := "outputs/generated"
  const ImageFormat := "PNG"

  /** Python truthiness of an optional string: present and non-empty. */
  predicate Truthy(s: Option<string>) {
    s.Some? && s.value != ""
  }

  // ---------------------------------------------------------------- __init__ and _get_best_device

  /** `model_name or DEFAULT_MODEL`. */
  function ResolveModelName(modelName: Option<string>): (r: string)
    ensures Truthy(modelName) ==> r == modelName.value
    ensures !Truthy(modelName) ==> r == DefaultModel
  {
    if Truthy(modelName) then modelName.value else DefaultModel
  }

  /** The first available of cuda, mps, cpu. */
  function BestDevice(cudaAvailable: bool, mpsAvailable: bool): (d: string)
    ensures d == "cuda" <==> cudaAvailable
    ensures d == "mps" <==> !cudaAvailable && mpsAvailable
    ensures d == "cpu" <==> !cudaAvailable && !mpsAvailable
  {
    if cudaAvailable then "cuda" else if mpsAvailable then "mps" else "cpu"
  }

  /** The fields the constructor sets before any model is loaded. */
  datatype GeneratorState = GeneratorState(modelName: string, device: string, config: ModelConfig)

  /**
   * The constructor: defaults for a missing model name and device, then the
   * configuration lookup, which raises `KeyError` for an unknown name.
   */
  function NewGenerator(modelName: Option<string>, device: Option<string>,
                        cudaAvailable: bool, mpsAvailable: bool): (r: Result<GeneratorState, string>)
    ensures r.Ok? <==> ResolveModelName(modelName) in Models
    ensures r.Ok? ==> r.value.modelName == ResolveModelName(modelName)
                      && r.value.config == Models[r.value.modelName]
    ensures r.Ok? && Truthy(device) ==> r.value.device == device.value
    ensures r.Ok? && !Truthy(device) ==> r.value.device == BestDevice(cudaAvailable, mpsAvailable)
    ensures r.Err? ==> r.error == "KeyError: " + ResolveModelName(modelName)
  {
    var name := ResolveModelName(modelName);
    var dev := if Truthy(device) then device.value else BestDevice(cudaAvailable, mpsAvailable);
    if name in Models then Ok(GeneratorState(name, dev, Models[name]))
    else Err("KeyError: " + name)
  }

  /** With no model name the generator always starts, on the CPU-compatible model. */
  lemma DefaultGeneratorStarts(device: Option<string>, cudaAvailable: bool, mpsAvailable: bool)
    ensures NewGenerator(None, device, cudaAvailable, mpsAvailable).Ok?
    ensures NewGenerator(None, device, cudaAvailable, mpsAvailable).value.config.steps == 10
  {
  }

  // ---------------------------------------------------------------- generate_image kwargs

  /** A value passed to the pipeline. */
  datatype Arg = StrArg(s: string) | NatArg(n: nat) | RealArg(r: real)

  const BaseKeys: set<string> := {"prompt", "num_images_per_prompt", "num_inference_steps", "width", "height"}

  /**
   * The keyword names the pipeline receives: always the five base ones;
   * `guidance_scale` exactly when the model's guidance is positive;
   * `negative_prompt` exactly when one was given and guidance is passed.
   */
  function KwargKeys(cfg: ModelConfig, negative: Option<string>): (ks: set<string>)
    ensures BaseKeys <= ks
    ensures "guidance_scale" in ks <==> cfg.guidance > 0.0
    ensures "negative_prompt" in ks <==> Truthy(negative) && cfg.guidance > 0.0
    ensures ks <= BaseKeys + {"guidance_scale", "negative_prompt"}
  {
    BaseKeys
    + (if cfg.guidance > 0.0 then {"guidance_scale"} else {})
    + (if Truthy(negative) && cfg.guidance > 0.0 then {"negative_prompt"} else {})
  }

  /** The dictionary `generate_image` assembles, step by step. */
  method GenerationKwargs(prompt: string, negative: Option<string>, numImages: nat, cfg: ModelConfig)
    returns (kw: map<string, Arg>)
    ensures kw.Keys == KwargKeys(cfg, negative)
    ensures kw["prompt"] == StrArg(prompt) && kw["num_images_per_prompt"] == NatArg(numImages)
    ensures kw["num_inference_steps"] == NatArg(cfg.steps)
    ensures kw["width"] == NatArg(cfg.width) && kw["height"] == NatArg(cfg.height)
    ensures "guidance_scale" in kw ==> kw["guidance_scale"] == RealArg(cfg.guidance)
    ensures "negative_prompt" in kw ==> kw["negative_prompt"] == StrArg(negative.value)
  {
    kw := map[
      "prompt" := StrArg(prompt),
      "num_images_per_prompt" := NatArg(numImages),
      "num_inference_steps" := NatArg(cfg.steps),
      "width" := NatArg(cfg.width),
      "height" := NatArg(cfg.height)
    ];
    if cfg.guidance > 0.0 {
      kw := kw["guidance_scale" := RealArg(cfg.guidance)];
    }
    if Truthy(negative) && "guidance_scale" in kw {
      kw := kw["negative_prompt" := StrArg(negative.value)];
    }
  }

  /** The guidance-free FLUX model never receives guidance or a negative prompt. */
  lemma FluxGetsNoNegative(negative: Option<string>)
    ensures "guidance_scale" !in KwargKeys(Models["flux_schnell"], negative)
    ensures "negative_prompt" !in KwargKeys(Models["flux_schnell"], negative)
  {
  }

  /** The two Stable Diffusion models forward any non-empty negative prompt. */
  lemma StableDiffusionGetsNegative(name: string, negative: string)
    requires name == "small_stable_diffusion" || name == "cpu_compatible"
    requires negative != ""
    ensures "negative_prompt" in KwargKeys(Models[name], Some(negative))
  {
  }

  // ---------------------------------------------------------------- save_images

  /** `c.isalnum() or c in (' ', '-', '_')`, with ASCII letters and digits. */
  predicate SafeChar(c: char) {
    IsLetter(c) || IsDigit(c) || c == ' ' || c == '-' || c == '_'
  }

  /** The characters of `s` that are kept, in order. */
  function KeepSafe(s: string): (r: string)
    ensures |r| <= |s|
    ensures forall i :: 0 <= i < |r| ==> SafeChar(r[i])
    ensures (forall i :: 0 <= i < |s| ==> SafeChar(s[i])) ==> r == s
  {
    if s == [] then []
    else if SafeChar(s[0]) then [s[0]] + KeepSafe(s[1..])
    else KeepSafe(s[1..])
  }

  const SafeLength := 50

  /** The file-name stem: filter, right-strip, then cut to 50 characters. */
  function SafePrompt(prompt: string): (r: string)
    ensures |r| <= SafeLength
    ensures forall i :: 0 <= i < |r| ==> SafeChar(r[i])
    ensures |r| <= |RStrip(KeepSafe(prompt))| && r == RStrip(KeepSafe(prompt))[..|r|]
    ensures |RStrip(KeepSafe(prompt))| <= SafeLength ==> r == RStrip(KeepSafe(prompt))
    ensures |RStrip(KeepSafe(prompt))| > SafeLength ==> r == RStrip(KeepSafe(prompt))[..SafeLength]
  {
    var t := RStrip(KeepSafe(prompt));
    if |t| <= SafeLength then t else t[..SafeLength]
  }

  /**
   * Stripping happens before the cut, so a cut that lands after a space
   * leaves the stem ending in a space: any safe prompt longer than 50
   * characters whose 50th character is a space shows it.
   */
  lemma SafePromptTrailingSpace(prompt: string)
    requires forall i :: 0 <= i < |prompt| ==> SafeChar(prompt[i])
    requires |prompt| > SafeLength && prompt[SafeLength - 1] == ' ' && prompt[|prompt| - 1] != ' '
    ensures SafePrompt(prompt) == prompt[..SafeLength]
    ensures SafePrompt(prompt)[SafeLength - 1] == ' '
  {
    assert !IsSpace(prompt[|prompt| - 1]);
    assert RStrip(prompt) == prompt;
  }

  /** The name of the `i`-th saved image (0-based), before it is joined to the directory. */
  function ImageFileName(safe: string, clock: Clock, i: nat, format: string): (name: string)
    ensures |name| > |safe| && name[..|safe|] == safe && name[|safe|] == '_'
  {
    safe + "_" + Stamp(clock) + "_" + NatToString(i + 1) + "." + Lower(format)
  }

  /** `output_dir`, or the configured directory when it is `None`. */
  function OutputDir(outputDir: Option<string>): string {
    if outputDir.Some? then outputDir.value else SaveDirectory
  }

  /** The path of the `i`-th image a `save_images` call writes. */
  function SavedPath(prompt: string, outputDir: Option<string>, clock: Clock, i: nat): string {
    PathJoin(OutputDir(outputDir), ImageFileName(SafePrompt(prompt), clock, i, ImageFormat))
  }

  /** One path per image, in image order, all sharing one time stamp. */
  method SaveImages(numImages: nat, prompt: string, outputDir: Option<string>, clock: Clock)
    returns (paths: seq<string>)
    ensures |paths| == numImages
    ensures forall i :: 0 <= i < numImages ==> paths[i] == SavedPath(prompt, outputDir, clock, i)
  {
    var dir := OutputDir(outputDir);
    var safe := SafePrompt(prompt);
    paths := [];
    for i := 0 to numImages
      invariant |paths| == i
      invariant forall j :: 0 <= j < i ==> paths[j] == SavedPath(prompt, outputDir, clock, j)
    {
      var filename := safe + "_" + Stamp(clock) + "_" + NatToString(i + 1) + "." + Lower(ImageFormat);
      paths := paths + [PathJoin(dir, filename)];
    }
  }

  /** Two images of one call never share a path, so none overwrites another. */
  lemma SavedPathsDistinct(prompt: string, outputDir: Option<string>, clock: Clock, i: nat, j: nat)
    requires SavedPath(prompt, outputDir, clock, i) == SavedPath(prompt, outputDir, clock, j)
    ensures i == j
  {
    var safe := SafePrompt(prompt);
    var a := ImageFileName(safe, clock, i, ImageFormat);
    var b := ImageFileName(safe, clock, j, ImageFormat);
    RelativeName(safe, clock, i);
    RelativeName(safe, clock, j);
    PathJoinInjective(OutputDir(outputDir), a, b);
    ImageFileNameInjective(safe, clock, ImageFormat, i, j);
  }

  lemma RelativeName(safe: string, clock: Clock, i: nat)
    requires forall k :: 0 <= k < |safe| ==> SafeChar(safe[k])
    ensures ImageFileName(safe, clock, i, ImageFormat) != []
    ensures ImageFileName(safe, clock, i, ImageFormat)[0] != '/'
  {
    var a := ImageFileName(safe, clock, i, ImageFormat);
    if safe == [] {
      assert a[0] == '_';
    } else {
      assert a[0] == safe[0];
      assert SafeChar(safe[0]);
    }
  }

  lemma ImageFileNameInjective(safe: string, clock: Clock, format: string, i: nat, j: nat)
    requires ImageFileName(safe, clock, i, format) == ImageFileName(safe, clock, j, format)
    ensures i == j
  {
    var pre := safe + "_" + Stamp(clock) + "_";
    var ext := "." + Lower(format);
    var na, nb := NatToString(i + 1), NatToString(j + 1);
    var a := pre + na + ext;
    var b := pre + nb + ext;
    assert ImageFileName(safe, clock, i, format) == a;
    assert ImageFileName(safe, clock, j, format) == b;
    assert |na| == |nb|;
    assert na == a[|pre|..|pre| + |na|];
    assert nb == b[|pre|..|pre| + |nb|];
    NatToStringInjective(i + 1, j + 1);
  }
}
