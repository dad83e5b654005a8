TestResult.DisplayName,TestResult.Outcome,TestResult.Duration,TestResult.ResourceCount,RandomSeed
Search.PushStep (correctness),Passed,00:00:01.2720494,1245125,3
Search.PushStep (well-formedness),Passed,00:00:00.3349198,123478,3
