TestResult.DisplayName,TestResult.Outcome,TestResult.Duration,TestResult.ResourceCount,RandomSeed
Search.PushStep (correctness),Passed,00:00:01.7898605,1514068,0
Search.PushStep (well-formedness),Passed,00:00:00.4023396,123406,0
