TestResult.DisplayName,TestResult.Outcome,TestResult.Duration,TestResult.ResourceCount,RandomSeed
Search.PushStep (correctness),Passed,00:00:01.0306418,1135746,4
Search.PushStep (well-formedness),Passed,00:00:00.3072998,123466,4
