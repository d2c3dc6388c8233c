/** The data the app keyboard works over (cli/src/constants/app-constants.ts):
    the model and mode names it cycles through, and the slash commands and
    context items its menus search. */
module AppConstants {

  const MODELS: seq<string> := ["Sonder", "Opus 4.5", "GPT5", "G3 Pro"]

  const MODES: seq<string> := ["stealth", "osint", "accept", "kill"]

  datatype Command = Command(name: string, aliases: seq<string>, description: string)

  datatype ContextItem = ContextItem(name: string, caption: string)

  const COMMANDS: seq<Command> := [
    Command("/add-dir", [], "Add a new working directory"),
    Command("/agents", [], "Manage agent configurations"),
    Command("/clear", ["reset", "new"], "Clear conversation history and free up context"),
    Command("/config", ["theme"], "Open config panel"),
    Command("/context", [], "Visualize current context usage as a colored grid"),
    Command("/doctor", [], "Diagnose and verify your installation and settings"),
    Command("/exit", ["quit"], "Exit the REPL"),
    Command("/login", ["logout"], "Login or logout when already logged in"),
    Command("/school", [], "Hacking playground to rank up")
  ]

  const CONTEXT_ITEMS: seq<ContextItem> := [
    ContextItem("*switch", "switch"),
    ContextItem("*previous", "previous"),
    ContextItem("*parent", "parent"),
    ContextItem("*editor", "editor"),
    ContextItem("*browser", "browser"),
    ContextItem("*copy", "copy"),
    ContextItem("*think?", "think?"),
    ContextItem("*support", "support"),
    ContextItem("*new", "new"),
    ContextItem("*handoff", "handoff"),
    ContextItem("*fork", "fork")
  ]

  function CommandName(c: Command): string { c.name }

  function ContextName(c: ContextItem): string { c.name }
}
