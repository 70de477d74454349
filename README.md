# Translator service: registry, dispatch and configuration

This project models the two parts of the Go translation service that make decisions.

- **The translator registry and dispatcher** (`internal/services/translator.go`), in `services.dfy`, module `Services`.
  A `TranslatorService` object owns a map from model identifier to a backend (`Translator`).
  The constructor registers four backends: `gpt-3.5`, `gpt-4`, `claude` and `llama`.
  `Translate` looks up `req.Model` by exact match.
  If the key is missing, it returns an `UnsupportedModel` error.
  Otherwise it calls the backend and either wraps the backend's error with the model name (`TranslationFailed`) or passes the response through.
  `IsModelSupported` and `GetSupportedModels` are queries over the map's keys.
  The backend call is the function parameter `invoke`. It stands for the backend's own `Translate(ctx, req)` and returns Go's `(response, error)` pair.
- **Configuration loading** (`internal/config/config.go`), in `configuration.dfy`, module `Configuration`.
  A `Config` object starts from defaults: port `8080`, empty API keys, debug `false`, timeout `30`.
  The YAML file, when a path is given, overrides it field by field, and environment variables override it after that.
  The methods `LoadFromFile`, `LoadFromEnv` and `NewConfig` update the object step by step.
  The pure functions `ApplyFile`, `ApplyEnv` and `Resolve` specify the methods, and the lemmas beside them prove per-field precedence.

`wrappers.dfy` holds `Option` (Go's nil) and `Result`.

Inputs that the Go code obtains from outside are parameters of the model:
- the `-config` flag value is `configFile`;
- `os.ReadFile` is `readFile`, and `yaml.Unmarshal` is `unmarshal`;
- the process environment is a `map<string, string>`, where `os.Getenv` of an absent key reads as `""`;
- `strconv.ParseBool` and `strconv.Atoi` are `parseBool` and `atoi`, which return `None` where Go returns an error.

Go's `int` is the newtype `int64`.

`Translate` itself validates nothing:
- It does not reject an empty text or an empty model identifier. An empty model is reported as `UnsupportedModel("")`, because `""` is not a key. Only the JSON API handler checks for empty fields; the form handler passes empty fields through to `Translate`.
- When a backend returns `(nil, nil)`, `Translate` returns `(nil, nil)` too: the response is passed through without a nil check.

## Model

| member | source | states |
|---|---|---|
| `Services.TranslatorService.constructor` | internal/services/translator.go:17-26 | the new registry's keys are exactly the four built-in identifiers, each bound to its mock backend |
| `Services.TranslatorService.RegisterTranslators` | internal/services/translator.go:29-36 | the four keys are added or replaced (last write wins); every other key keeps its old binding |
| `Services.TranslatorService.Translate` | internal/services/translator.go:39-54 | three outcomes: unknown model gives `UnsupportedModel(model)` and no response; a backend error gives no response and `TranslationFailed(model, cause)`; otherwise the backend's response passes through unchanged; an error always comes with no response and names the requested model |
| `Services.TranslatorService.GetSupportedModels` | internal/services/translator.go:57-63 | the returned list holds each registered key exactly once: same element set as the map's keys, no duplicates, length equal to the map's size; the map is not modified |
| `Services.TranslatorService.IsModelSupported` | internal/services/translator.go:66-69 | holds exactly when the identifier is a key of the map; when it does not hold, `Translate` of that model gives the unsupported-model error for every text, context and backend |
| `Services.UnsupportedIffNotRegistered` | internal/services/translator.go:66-69 | `IsModelSupported(m)` holds exactly when `m` is a key; `Translate` reports `UnsupportedModel` exactly when the model is not supported, never for a backend failure |
| `Services.UnsupportedInvokesNoBackend` | internal/services/translator.go:41-44 | for an unregistered model the result is the same for every backend oracle, so no backend is called, and it is the unsupported-model error |
| `Services.DispatchUsesRegisteredBackend` | internal/services/translator.go:41-53 | for a registered model the result depends only on what the backend bound to that key answers to the same context and request |
| `Services.CancellationIsNotSwallowed` | internal/services/translator.go:47-51 | a cancelled or timed-out backend call comes back as `TranslationFailed` carrying that cause, with no response |
| `Services.DefaultRegistryLookupIsExact` | internal/services/translator.go:32-44 | over the constructed registry, supported means one of the four identifiers; `"GPT-4"` and `""` are unsupported and `Translate` rejects them |
| `Configuration.Resolve` | internal/config/config.go:28-46 | the order of NewConfig: without a path, the environment applied to the defaults; with a path, a load failure gives `FileLoadFailed` of that error, otherwise the environment applied to the file applied to the defaults |
| `Configuration.Config.constructor` | internal/config/config.go:28-34 | the fields start at port `8080`, empty keys, debug false, timeout 30 |
| `Configuration.ReadConfigFile` | internal/config/config.go:51-70 | a read failure wins; otherwise a decode failure; otherwise the decoded document |
| `Configuration.ApplyFile` | internal/config/config.go:73-85 | port and both keys are replaced only by non-empty file values; timeout only by a positive one; debug always, even by false |
| `Configuration.Config.LoadFromFile` | internal/config/config.go:50-88 | on a read or decode error it returns that error and changes no field; otherwise it returns no error and the fields become `ApplyFile` of the old fields |
| `Configuration.ApplyEnv` | internal/config/config.go:91-111 | non-empty `PORT`, `OPENAI_API_KEY`, `ANTHROPIC_API_KEY` replace their fields; `DEBUG` and `TIMEOUT` replace theirs only when non-empty and parsed; a parse failure keeps the old value; no sign check on `TIMEOUT` |
| `Configuration.Config.LoadFromEnv` | internal/config/config.go:91-111 | the fields become `ApplyEnv` of the old fields |
| `Configuration.NewConfig` | internal/config/config.go:22-47 | returns a fresh config holding `Resolve`'s settings (defaults, then file if a path is given, then environment), or no config and the file-load error |
| `Configuration.ResolveFailsIffFileLoadFails` | internal/config/config.go:37-41 | configuration fails exactly when a path is given and loading it fails; the error wraps that load error |
| `Configuration.NoPathSkipsFile` | internal/config/config.go:37 | with an empty path the result does not depend on the file system or decoder and is the environment applied to the defaults |
| `Configuration.DefaultsWhenNothingGiven` | internal/config/config.go:28-46 | with no path and an empty environment the result is exactly the defaults |
| `Configuration.PortPrecedence` | internal/config/config.go:73-75 | the port is the non-empty `PORT` if any, else the file's non-empty port, else `8080` |
| `Configuration.OpenAIKeyPrecedence` | internal/config/config.go:76-78 | the OpenAI key is the non-empty `OPENAI_API_KEY` if any, else the file's non-empty key, else empty |
| `Configuration.AnthropicKeyPrecedence` | internal/config/config.go:79-81 | the Anthropic key is the non-empty `ANTHROPIC_API_KEY` if any, else the file's non-empty key, else empty |
| `Configuration.DebugPrecedence` | internal/config/config.go:101-105 | debug is a parsed `DEBUG` if any, else the loaded file's value (even false), else false |
| `Configuration.TimeoutPrecedence` | internal/config/config.go:106-110 | timeout is a parsed `TIMEOUT` of any sign if any, else the file's positive timeout, else 30 |
| `Configuration.FileStageKeepsPortAndTimeoutValid` | internal/config/config.go:82-84 | the file stage keeps a non-empty port and a positive timeout; the environment stage keeps the port non-empty |
| `Configuration.EnvTimeoutHasNoPositivityGuard` | internal/config/config.go:106-110 | a `TIMEOUT` that parses to any zero or negative value becomes the timeout, replacing even a positive one |
| `Configuration.StagesAreIdempotent` | internal/config/config.go:73-110 | applying the same file, or the same environment, twice gives the same result as once |

## Left out

- The backends (`MockTranslator` and the `models` package) are not part of this model. A backend is identified by its display name, and its behaviour is the oracle `invoke`. No output format is assumed.
- Context cancellation and deadlines are not modelled as time. The context is an opaque value passed to the backend unchanged, and cancellation appears only as a backend error cause.
- The `log.Printf` call on a backend failure is I/O and is left out.
- Exact error message texts (`fmt.Errorf`) are left out. Errors are the datatypes `UnsupportedModel`, `TranslationFailed`, `ReadFailed`, `DecodeFailed` and `FileLoadFailed`. Go returns the raw read or decode error; tagging it with the failing step is a modelling choice.
- `flag.Parse`, `os.ReadFile`, `yaml.Unmarshal`, `os.Getenv`, `strconv.ParseBool` and `strconv.Atoi` are external library calls and are inputs of the model. The YAML decoder's own behaviour is not modelled: missing keys decoding to zero values is assumed of the `unmarshal` input.
- `Services.TranslatorService.GetSupportedModels` returns keys in an unspecified order, because Go's map iteration order is unspecified. The model picks keys with a nondeterministic choice and promises no order.
- The HTTP handlers (`internal/handlers/handlers.go`) and the server wiring (`cmd/translator/main.go`) are transport plumbing. They are not part of this model, and neither are the JSON API handler's empty-field checks or the handlers' 30-second timeout.
- `Services.TranslatorService.Translate`: the request and the response are Go pointers, modelled here as values. Go reads `req.Model` again after the backend returns, so a backend that mutated `*req` would have a different model named in the error. The model assumes a backend does not mutate the request, and it does not capture that aliasing.
- Go's `int` is modelled as 64-bit. On a 32-bit platform `strconv.Atoi` and the YAML decoder would accept a smaller range; that range is whatever the `atoi` and `unmarshal` inputs return.
