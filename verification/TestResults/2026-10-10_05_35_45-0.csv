TestResult.DisplayName,TestResult.Outcome,TestResult.Duration,TestResult.ResourceCount,RandomSeed
Patients.UpdateThenDeletePatient (correctness),Passed,00:00:00.3708167,435309,0
