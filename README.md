# KhetiAI crop-analysis core in Dafny

KhetiAI-Backend is a FastAPI service for farmers. A user uploads a crop photograph. The service validates the upload and returns a crop-health assessment in English or Urdu. The assessment has a score, a growth stage, an optional disease with its confidence, and recommendation text. The service also talks to an OpenAI chat model and to speech services in either language.

This project models the deterministic logic of that core and proves properties of it:

- `ImageProcessing` (app/services/image_processing.py) covers the feature extractor. It models:
  - the range masks and their pixel shares;
  - the green-channel percentage;
  - the contour filter and average spot size;
  - the image dimensions and the quality labels;
  - the k-means palette and its empty fallback;
  - the decode-failure error;
  - the text that renders the descriptor as evidence for a language model.

  Whatever OpenCV computes from the decoded image is given to the model as inputs, in a `Primitives` value:
  - the HSV and grayscale projections;
  - the standard deviations;
  - the contour areas;
  - the Laplacian variance;
  - the k-means outcome.
- `CropAnalysis` (app/api/v1/endpoints/crop_analysis.py) covers the `/analyze` handler. It models:
  - the content-type allow-list, checked before the body is read;
  - the 10 MiB size limit;
  - the mock assessment, with its random draws as nondeterministic choices inside the source's bounds;
  - the recommendation text for each language, with its English fallback and the optional disease sentence;
  - the mapping of exceptions to HTTP errors.

  The upload is a class whose read position moves when the body is read.
- `OpenAI` (app/services/openai_service.py) covers `OpenAIService`. It models:
  - the system-prompt table with its English fallback;
  - the text-to-speech language map;
  - the `[system] + messages` request;
  - the fixed prefixes under which each call re-raises a failure.

  The remote calls are function parameters.
- `Wrappers`, `Text` and `Stats` hold the shared vocabulary.
  - `Wrappers`: Option and Result, re-raising under a prefix, `dict.get` with a default.
  - `Text`: `"".join`, decimal rendering with its round trip, the `repr` of a list of strings.
  - `Stats`: counts, byte means, percentages, filtering, and truncation toward zero.

Python's `:.1f` and `:.1%` number renderings are the parameters `fmt` and `pct`. `uuid4()` and `datetime.now()` are the parameters `requestId` and `createdAt`.

Facts about the code that the model follows:

- The area filter feeds only the average spot size (image_processing.py:57-59). `potential_spots_count` is the number of all contours (image_processing.py:55).
- The evidence text renders a subset of the descriptor (image_processing.py:169-188). `FormatIgnoresUnrenderedFields` proves which fields it does not depend on.
- The crop-analysis handler returns a mock assessment drawn at random (crop_analysis.py:66-73). It does not call a vision model or parse a reply.

## Model

| member | source | states |
|---|---|---|
| Wrappers.WithPrefix | app/services/image_processing.py:122-123 | re-raising under a prefix keeps a success unchanged; an error message becomes exactly the prefix followed by the original message |
| Wrappers.GetOr | app/services/openai_service.py:81 | `dict.get(key, default)` gives the entry when the key is present and the default otherwise |
| Text.NatToStringRoundTrip | app/services/image_processing.py:171 | the decimal digits rendered for a count or a dimension read back as that number |
| Text.NatToStringInjective | app/services/image_processing.py:178 | distinct counts render to distinct digit strings |
| Stats.CountIsMatchingSize | app/services/image_processing.py:75 | the number of matching pixels is the size of the set of mask positions that are on |
| Stats.CountAll | app/services/image_processing.py:75 | the count equals the population size exactly when every element matches |
| Stats.CountNone | app/services/image_processing.py:79 | the count is zero exactly when no element matches |
| Stats.MeanBy | app/services/image_processing.py:48 | the mean of a byte channel over a non-empty population lies in [0, 255] |
| Stats.MeanOfUniform | app/services/image_processing.py:43 | the mean of a channel that is constant is that constant |
| Stats.Percentage | app/services/image_processing.py:75 | a share in percent lies in [0, 100]; it is 0 exactly when nothing matches and 100 exactly when everything matches |
| Stats.PercentageOfMatching | app/services/image_processing.py:75 | the percentage is 100 times the size of the matching-position set over the population |
| Stats.Above | app/services/image_processing.py:58 | the filtered areas are exactly the areas above the threshold. Each such area is kept as many times as it occurs, and every other area is dropped. There are no more of them than areas |
| Stats.MeanAbove | app/services/image_processing.py:59 | the mean of values that all exceed a threshold exceeds it |
| Stats.MeanOrZero | app/services/image_processing.py:59 | `np.mean(s) if s else 0`: 0 for no values, the mean otherwise, and in both cases the value times the number of values is their sum |
| Stats.TruncateToInt | app/services/image_processing.py:148 | `astype(int)` drops the fractional part, rounding toward zero on both signs |
| Stats.TruncationIsUnique | app/services/image_processing.py:148 | the truncation of a real is uniquely determined |
| ImageProcessing.BrownYellowPercentage | app/services/image_processing.py:74-75 | the brown/yellow share lies in [0, 100]; it is 100 exactly when every pixel has H in [10, 40], S in [50, 255] and V in [50, 255] (all inclusive), and 0 exactly when none does |
| ImageProcessing.DarkSpotsPercentage | app/services/image_processing.py:78-79 | the dark share lies in [0, 100]; it is 100 exactly when every gray value is in [0, 80], and 0 exactly when none is |
| ImageProcessing.BrownYellowIsMaskShare | app/services/image_processing.py:74-75 | the brown/yellow percentage is 100 times the number of on-pixels of the mask over rows times columns |
| ImageProcessing.DarkSpotsIsMaskShare | app/services/image_processing.py:78-79 | the dark-spot percentage is 100 times the number of on-pixels of the mask over rows times columns |
| ImageProcessing.GreenPercentage | app/services/image_processing.py:47-50 | the green percentage of a byte mean lies in [0, 100] and times 255 equals the mean times 100 |
| ImageProcessing.UniformImageMeans | app/services/image_processing.py:43-50 | on an image of one colour the BGR means are that colour, and the green percentage is its green value over 255 times 100 |
| ImageProcessing.AverageSpotSize | app/services/image_processing.py:57-59 | the average spot size is the mean of the contour areas above 10, or 0 when there are none (`MeanOrZero` of the filtered areas, whose value times their number is their total). It is 0 exactly when no area exceeds 10, and greater than 10 exactly when some area does |
| ImageProcessing.AverageSpotSizeExample | app/services/image_processing.py:58-59 | for the areas 5, 20 and 40 the average spot size is 30: the area 5 is dropped and the other two are averaged |
| ImageProcessing.BrightnessLabel | app/services/image_processing.py:115 | the brightness label is "good" exactly when 50 < brightness < 200 (strict at both ends), and "poor" otherwise |
| ImageProcessing.RichnessLabel | app/services/image_processing.py:116 | the colour-richness label is "good" exactly when the saturation mean exceeds 50, and "low" otherwise |
| ImageProcessing.CastCenter | app/services/image_processing.py:148 | a cast centre has three components, each the truncation of the matching channel |
| ImageProcessing.DominantColors | app/services/image_processing.py:136-153 | the palette is empty when k-means raises; otherwise it has one entry per centre, each component truncated toward zero |
| ImageProcessing.PaletteOfByteCentersIsBytes | app/services/image_processing.py:148-150 | centres inside the colour cube give palette components in [0, 255] |
| ImageProcessing.Describe | app/services/image_processing.py:37-118 | the descriptor of a decoded raster is sound. Width is the column count, height the row count, total pixels their product. The spot count is the number of all contours. Sharpness equals texture variance. The palette is `DominantColors` of the k-means outcome, so it is empty exactly when clustering failed. The BGR means, brightness (the gray mean) and the hue, saturation and value means are the channel means of the image and its projections. The BGR deviations are the given ones. Each percentage and the average are the functions above |
| ImageProcessing.ExtractCropContext | app/services/image_processing.py:29-123 | a descriptor comes back exactly when the buffer decodes and the later OpenCV calls succeed, and it is `Describe` of the decoded raster and the primitives: sound, with the image's own width and height. A `None` from the decoder gives "Error extracting crop context: Failed to decode image". Any other failure gives that prefix followed by its own message |
| ImageProcessing.FormatContextForLlm | app/services/image_processing.py:155-189 | the evidence opens with a newline, "Image Analysis Context:" and the "{width}x{height}" size line; the three section headers occur in order; the spot-count line with the integer count occurs in it |
| ImageProcessing.EvidenceLayout | app/services/image_processing.py:169-188 | for any rendered numbers, the layout puts the size line first, the three headers in order and the spot-count line inside |
| ImageProcessing.FormatIgnoresUnrenderedFields | app/services/image_processing.py:165-188 | the evidence does not change when the pixel total, the BGR means and deviations, the green mean and deviation, the texture variance, the value mean or the palette change |
| CropAnalysis.AllowedTypesReprIsListRepr | app/api/v1/endpoints/crop_analysis.py:43-47 | the allowed types render as Python renders the list: `['image/jpeg', 'image/png', 'image/webp']` |
| CropAnalysis.ContentTypeCheck | app/api/v1/endpoints/crop_analysis.py:43-48 | the content type passes exactly when it is one of the three image types. Otherwise the error is 400, naming the type (`None` when absent) and the allowed list |
| CropAnalysis.MaxSizeRendering | app/api/v1/endpoints/crop_analysis.py:51-56 | 10 * 1024 * 1024 renders as "10485760" |
| CropAnalysis.SizeCheck | app/api/v1/endpoints/crop_analysis.py:51-57 | a body passes exactly when it has at most 10485760 bytes, the limit included; a longer one gets 400 "File too large. Maximum size: 10485760 bytes" |
| CropAnalysis.BaseSentences | app/api/v1/endpoints/crop_analysis.py:76-91 | there are four base sentences: the Urdu ones for "ur" and the English ones for every other tag |
| CropAnalysis.DiseaseSentence | app/api/v1/endpoints/crop_analysis.py:93-98 | the disease sentence is Urdu for "ur" and English otherwise; it is non-empty and contains the disease name |
| CropAnalysis.DiseaseNameOccurs | app/api/v1/endpoints/crop_analysis.py:95-96 | the disease name occurs in the disease sentence of either language |
| CropAnalysis.RecommendationText | app/api/v1/endpoints/crop_analysis.py:91-98 | the text starts with the joined base sentences. It equals them exactly when no disease was detected. Otherwise it is they followed by the disease sentence of the same language, which contains the disease's name |
| CropAnalysis.LastSentenceFollowsScore | app/api/v1/endpoints/crop_analysis.py:76-89 | in both languages the last base sentence is the fertilizer advice exactly when the score is below 80, and the excellent-condition sentence exactly when it is at least 80 |
| CropAnalysis.UnsupportedLanguageFallsBackToEnglish | app/api/v1/endpoints/crop_analysis.py:91-98 | a tag other than "en" and "ur" gets exactly the English text, disease sentence included |
| CropAnalysis.EnglishTextOpening | app/api/v1/endpoints/crop_analysis.py:78-79 | the English text opens with the score sentence followed by the growth-stage sentence |
| CropAnalysis.ToHttpError | app/api/v1/endpoints/crop_analysis.py:113-116 | an HTTPException propagates unchanged; any other exception becomes 500 whose detail is "Error analyzing crop: " followed by its message |
| CropAnalysis.UploadFile.constructor | app/api/v1/endpoints/crop_analysis.py:35 | a new upload has its content type, its bytes and its read outcome, at position 0 |
| CropAnalysis.UploadFile.Read | app/api/v1/endpoints/crop_analysis.py:52 | reading gives the rest of the body and consumes it, or gives the stream's error and leaves the position |
| CropAnalysis.TryAnalyze | app/api/v1/endpoints/crop_analysis.py:41-111 | a bad content type is rejected before the body is read (the position is unchanged). A read failure is raised as is and leaves the position. A read that succeeds consumes the body. An oversized body gets the 400 size error. Otherwise the response keeps the request's id, language and time and has analysis type "health". Its draws lie in bounds: processing time in [1, 3], score in [60, 95], stage among the five, disease among the four choices, confidence in [0.7, 0.95] exactly when a disease. Its text is `RecommendationText` of those draws |
| CropAnalysis.AnalyzeCrop | app/api/v1/endpoints/crop_analysis.py:33-116 | the handler's outcome: 400 with the type message for a bad content type, before any read; after the type check the position is unchanged by a failed read and at the end of the body after a successful one; 500 with "Error analyzing crop: " and the read error for a failed read; 400 with the size message for an oversized body; otherwise an assessment as above |
| OpenAI.GetSystemMessage | app/services/openai_service.py:50-81 | the system message always has role "system"; its content is the Urdu prompt for "ur" and the English prompt for "en" and every other tag |
| OpenAI.SystemPromptIsUrduExactlyForUrdu | app/services/openai_service.py:52-81 | the prompt is the Urdu one exactly when the tag is "ur" |
| OpenAI.TtsLanguage | app/services/openai_service.py:89-94 | the speech language is "ur" exactly when the tag is "ur", and "en" exactly when it is not |
| OpenAI.ChatRequestFor | app/services/openai_service.py:35-43 | the request has one message more than the caller's. The system message comes first, then the caller's messages in order. It uses the configured model, the given temperature and 500 max tokens |
| OpenAI.ChatRequestKeepsMessages | app/services/openai_service.py:35-36 | after the system message, the caller's messages come back unchanged |
| OpenAI.OpenAIService.constructor | app/services/openai_service.py:20-22 | the service keeps the API key and uses the configured model "gpt-4o-mini" |
| OpenAI.OpenAIService.GetChatCompletion | app/services/openai_service.py:24-48 | the reply to the composed request is returned unchanged; a failure is re-raised as "OpenAI API error: " followed by its message |
| OpenAI.OpenAIService.TextToSpeech | app/services/openai_service.py:83-107 | the synthesiser gets the text and the mapped language; its audio is returned unchanged; a failure is re-raised as "Text-to-speech error: " followed by its message |
| OpenAI.OpenAIService.SpeechToText | app/services/openai_service.py:109-132 | the audio goes to the "whisper-1" transcription model; the transcript is returned unchanged; a failure is re-raised as "Speech-to-text error: " followed by its message |

## Left out

- OpenCV and numpy primitives (`imdecode`, `cvtColor`, `Canny`, `findContours`, `contourArea`, `Laplacian`, `kmeans`, `np.std`, `.var()`) are foreign library calls. The decode outcome enters as a `Decoded` value: an image, `None`, or the message the decoder raised. The outputs of the later calls enter as a `Result` holding either the `Primitives` value or the message one of them raised. The LAB conversion at image_processing.py:39 is computed but never used, so it is not modelled.
- ImageProcessing.ExtractCropContext: the OpenCV calls after decoding are one outcome. Either all of them give their outputs or one of them raises with a message. Which call raised is not modelled.
- Floating point: means, percentages and averages are exact reals. IEEE rounding is not modelled.
- `:.1f` and `:.1%` rendering are the parameters `fmt` and `pct`, so the model says nothing about the digits they produce.
- `preprocess_image_for_vision_api` (image_processing.py:191-228) is PIL resizing, JPEG re-encoding and base64 encoding. It is library behaviour.
- The chat-completion, gTTS and Whisper calls are network calls. Whisper's temporary file is file I/O. All of them are function parameters of the service methods. `get_audio_base64` is a library wrapper.
- `OpenAIService.client` is not a field of the model: the client object is the remote calls, which the methods take as parameters.
- `time.sleep(processing_time)` only delays the reply, so it is not modelled. The random draws are nondeterministic choices inside their bounds. A draw's distribution is not modelled.
- `uuid4()` and `datetime.now()` are the parameters `requestId` and `createdAt`.
- Python truthiness: `if disease_detected` is modelled as "a disease was drawn". Every non-`None` choice is a non-empty name, so the two agree.
- Pydantic validation of `CropAnalysisResponse` is not modelled. The response is a datatype with the same fields.
- `ImageUploadResponse` is declared in crop_analysis.py but never used by the handler, so it is not modelled.
- app/api/v1/endpoints/chat.py, main.py, app/api/v1/api.py, app/core/config.py (beyond the model name) and app/api/v1/endpoints/health.py are not part of this model. They are request plumbing, startup and configuration.
- RecommendationText requires a confidence whenever a disease is given. The handler always draws one together with the disease, and `TryAnalyze` meets the requirement.
