TestResult.DisplayName,TestResult.Outcome,TestResult.Duration,TestResult.ResourceCount,RandomSeed
Search.PushStep (correctness),Passed,00:00:00.8850943,1035440,1
Search.PushStep (well-formedness),Passed,00:00:00.3511643,123551,1
