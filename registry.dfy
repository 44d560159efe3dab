/** The language registry: which languages have a runner image, and the image's name. */
module Registry {

  /** Language identifier to the directory its runner image is built from. */
  const RunnerImageContexts: map<string, string> := map["python3" := "/runners/python3/"]

  const ImagePrefix: string := "runner-"

  /** A language is supported exactly when it is a key of the registry, and only python3 is. */
  function IsSupportedProgrammingLanguage(language: string): (supported: bool)
    ensures supported <==> language == "python3"
  {
    language in RunnerImageContexts
  }

  /** The image a submission in `language` is run in; the language can be read back from it. */
  function RunnerImage(language: string): (image: string)
    ensures |image| == |ImagePrefix| + |language|
    ensures image[..|ImagePrefix|] == ImagePrefix
    ensures image[|ImagePrefix|..] == language
  {
    ImagePrefix + language
  }

  /** Different languages are never run in the same image. */
  lemma RunnerImageInjective(a: string, b: string)
    ensures RunnerImage(a) == RunnerImage(b) ==> a == b
  {
  }
}
