/** What execution profiles, policies and tasks have in common. */
module ExecutionTypes {

  datatype Capability = InspectWorkspace | ModifyWorkspace | RunCommands | ReadPipeline

  datatype Permission = ReadWorkspace | WriteWorkspace | Shell | Network

  datatype Transport = CodexCli | ClaudeCli | GeminiCli | Api

}
