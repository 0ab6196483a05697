/**
 * The leaf-disease form: choosing an image, the analysis request and its
 * loading/result/error state, and how a diagnosis is presented.
 */
module DiseaseDetection {
  import opened Wrappers
  import opened Strings

  /** What the detection service returns for a photo. */
  datatype Diagnosis = Diagnosis(isPlantLeaf: bool, diseaseName: string, confidence: real, treatmentAdvice: string)

  /** A chosen image file. */
  datatype ImageFile = ImageFile(name: string)

  const AnalysisError := "An error occurred while analyzing the image. Please try again."
  const NoTreatment := "No treatment necessary."
  const Healthy := "healthy"

  datatype Tone = Green | Yellow | Red

  /** The colour of the confidence figure. */
  function ConfidenceColor(confidence: real): (t: Tone)
    ensures t == Green <==> confidence > 0.8
    ensures t == Yellow <==> 0.5 < confidence <= 0.8
    ensures t == Red <==> confidence <= 0.5
  {
    if confidence > 0.8 then Green
    else if confidence > 0.5 then Yellow
    else Red
  }

  /** `diseaseName.toLowerCase() === 'healthy'`. */
  function IsHealthy(diseaseName: string): (healthy: bool)
    ensures healthy ==> |diseaseName| == |Healthy|
    ensures diseaseName == Healthy ==> healthy
  {
    ToLower(diseaseName) == Healthy
  }

  /** The healthy test is case-insensitive equality: seven letters, each that of "healthy" in either case. */
  lemma HealthyIff(diseaseName: string)
    ensures IsHealthy(diseaseName) <==>
              |diseaseName| == 7
              && forall i :: 0 <= i < 7 ==> diseaseName[i] == "healthy"[i] || diseaseName[i] == "HEALTHY"[i]
  {
  }

  /** The advice shown: the service's advice, or a fixed sentence when it is empty. */
  function TreatmentAdvice(d: Diagnosis): (shown: string)
    ensures shown != ""
    ensures d.treatmentAdvice != "" ==> shown == d.treatmentAdvice
    ensures d.treatmentAdvice == "" ==> shown == NoTreatment
  {
    if d.treatmentAdvice != "" then d.treatmentAdvice else NoTreatment
  }

  /** The Analyze button is disabled with no file chosen or while loading. */
  function AnalyzeDisabled(file: Option<ImageFile>, loading: bool): (disabled: bool)
    ensures !disabled <==> file.Some? && !loading
  {
    file.None? || loading
  }

  /** A preview is usable when present and not the empty string. */
  function HasPreview(previewUrl: Option<string>): (usable: bool)
    ensures usable <==> previewUrl.Some? && |previewUrl.value| > 0
  {
    previewUrl.Some? && previewUrl.value != ""
  }

  class DiseaseDetectionForm {
    var file: Option<ImageFile>
    var previewUrl: Option<string>
    var loading: bool
    var result: Option<Diagnosis>
    var error: Option<string>

    constructor ()
      ensures file == None && previewUrl == None && !loading && result == None && error == None
    {
      file, previewUrl, loading, result, error := None, None, false, None, None;
    }

    /** A file was chosen: it is kept and the previous result and error are cleared; choosing nothing changes nothing. */
    method HandleFileChange(selected: Option<ImageFile>)
      modifies this
      ensures selected.None? ==>
                file == old(file) && result == old(result) && error == old(error)
      ensures selected.Some? ==> file == selected && result == None && error == None
      ensures selected.Some? && !loading ==> !AnalyzeDisabled(file, loading)
      ensures previewUrl == old(previewUrl) && loading == old(loading)
    {
      if selected.Some? {
        file := selected;
        result := None;
        error := None;
      }
    }

    /** The reader finished: its data URL becomes the preview. */
    method PreviewLoaded(dataUrl: string)
      modifies this
      ensures previewUrl == Some(dataUrl)
      ensures file == old(file) && loading == old(loading) && result == old(result) && error == old(error)
    {
      previewUrl := Some(dataUrl);
    }

    /** Before the call: without a preview nothing happens; otherwise loading starts, result and error are cleared, and the preview is the photo sent. */
    method BeginAnalysis() returns (photo: Option<string>)
      modifies this
      ensures !HasPreview(old(previewUrl)) ==>
                photo == None && loading == old(loading) && result == old(result) && error == old(error)
      ensures HasPreview(old(previewUrl)) ==>
                photo == old(previewUrl) && loading && result == None && error == None
                && AnalyzeDisabled(file, loading)
      ensures file == old(file) && previewUrl == old(previewUrl)
    {
      if !HasPreview(previewUrl) {
        return None;
      }
      loading := true;
      result := None;
      error := None;
      photo := previewUrl;
    }

    /** After the call: the diagnosis on success, the fixed message on failure; loading ends. */
    method CompleteAnalysis(response: Result<Diagnosis, string>)
      modifies this
      ensures !loading
      ensures response.Success? ==> result == Some(response.value) && error == old(error)
      ensures response.Failure? ==> result == old(result) && error == Some(AnalysisError)
      ensures file == old(file) && previewUrl == old(previewUrl)
    {
      if response.Success? {
        result := Some(response.value);
      } else {
        error := Some(AnalysisError);
      }
      loading := false;
    }

    /** The whole handler: afterwards exactly one of result and error is set, and loading is over. */
    method HandleSubmit(getDiseasePrediction: string -> Result<Diagnosis, string>) returns (photo: Option<string>)
      modifies this
      ensures file == old(file) && previewUrl == old(previewUrl)
      ensures !HasPreview(old(previewUrl)) ==>
                photo == None && loading == old(loading) && result == old(result) && error == old(error)
      ensures HasPreview(old(previewUrl)) ==>
                photo == old(previewUrl) && !loading
                && (result.Some? != error.Some?)
                && var response := getDiseasePrediction(photo.value);
                   (response.Success? ==> result == Some(response.value))
                   && (response.Failure? ==> error == Some(AnalysisError))
    {
      photo := BeginAnalysis();
      if photo.Some? {
        CompleteAnalysis(getDiseasePrediction(photo.value));
      }
    }
  }
}
