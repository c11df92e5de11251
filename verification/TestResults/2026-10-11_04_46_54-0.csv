TestResult.DisplayName,TestResult.Outcome,TestResult.Duration,TestResult.ResourceCount,RandomSeed
SourceFilter.JudgeKeepsConsistent (correctness),Passed,00:00:01.7186583,13280774,1
SourceFilter.JudgeKeepsConsistent (well-formedness),Passed,00:00:00.1441909,163954,1
