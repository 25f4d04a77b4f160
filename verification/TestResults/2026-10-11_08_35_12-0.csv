TestResult.DisplayName,TestResult.Outcome,TestResult.Duration,TestResult.ResourceCount,RandomSeed
JsStrings.TrimStart (well-formedness),Failed,00:00:02.8119025,2016432,0
JsStrings.TrimIdempotent (correctness),Failed,00:00:01.9942639,2018503,0
JsStrings.AllWhitespace (well-formedness),Passed,00:00:00.0864955,12212,0
JsStrings.TrimIgnoresPadding (correctness),Passed,00:00:00.0621070,132446,0
JsStrings.TrimEndSkipsWhitespace (correctness),Passed,00:00:00.0525921,203052,0
JsStrings.TrimEnd (well-formedness),Passed,00:00:00.0444619,144660,0
JsStrings.Trim (well-formedness),Passed,00:00:00.0443430,82733,0
JsStrings.TrimStartAppend (correctness),Passed,00:00:00.0400596,51193,0
JsStrings.SameTrimSameBlankness (correctness),Passed,00:00:00.0198655,25948,0
JsStrings.TrimStartSkipsWhitespace (correctness),Passed,00:00:00.0191074,37940,0
JsStrings.IndexOf (well-formedness),Passed,00:00:00.0171785,30329,0
JsStrings.EmptyIsBlank (correctness),Passed,00:00:00.0171338,23365,0
JsStrings.IndexOfFinds (correctness),Passed,00:00:00.0107046,14847,0
JsStrings.IndexOfFinds (well-formedness),Passed,00:00:00.0088461,11007,0
JsStrings.StartsWith (well-formedness),Passed,00:00:00.0073652,7387,0
