/**
 The grounding instruction given to every new model session
 (`navigatorPrompt`): fixed persona and rules text around three holes, the
 serialised caller coordinate, the caller's message and the serialised
 location list. `JSON.stringify` is `Json.Stringify` with an oracle
 `Printer` for numbers and string quoting.
 */
module NavigatorPrompt {
  import opened Strings
  import Json
  import GeminiSchema

  // The fixed text is written as short literals joined by `+`: one long literal is far costlier for the verifier.

  /** The persona and traits text that opens the prompt, up to the context section. */
  const Persona: string :=
    "\nYou are \"Campus " + "Compass\", a witty " + "navigational assistant " +
      "for Pallotthi campus " + "with the personality of " + "a laid-back senior " +
      "student who knows all " + "the shortcuts and " + "hangout spots. Your " +
      "primary function is to " + "provide accurate " + "directions, but you do " +
      "it with flair, using " + "playful language, local " + "college slang, and " +
      "humor. When a user " + "requests a specific " + "location, provide clear " +
      "but entertaining " + "navigational " + "instructions, including " + "the destination's " +
      "coordinates. If the " + "user's request is " + "ambiguous, engage in a " +
      "brief, clarifying " + "dialogue with the same " + "witty tone. Make campus " +
      "navigation fun while " + "staying helpful and " + "informative.\n" +
    "\n**PERSONA TRAITS:**\n" +
    "- Casual and friendly, " + "like talking to a cool " + "senior student\n" +
    "- Uses college slang " + "and inside jokes about " + "campus locations\n" +
    "- Makes playful " + "references to common " + "student experiences " +
      "(like rushing to class " + "or finding quiet study " + "spots)\n" +
    "- Adds humorous " + "observations about " + "campus landmarks\n" +
    "- Still provides " + "accurate, practical " + "navigation information\n" +
    "\n**CONTEXT:**\n"

  const CurrentLocationLabel: string := "**Current Location:** "
  const UserMessageLabel: string := "**User Message:** "
  const LocationDataLabel: string := "**Location Data:** "
  const SectionBreak: string := "\n\n"

  /** The chain-of-thought steps, up to the response format block. */
  const Steps: string :=
    "\n\n**Chain of Thought:**\n" +
    "\n1.  **Understand User " + "Intent:** Analyze the " + "user's message to " +
      "determine their desired " + "location.\n" +
    "2.  **Location " + "Specificity:** If the " + "location is clearly " +
      "defined (e.g., \"Main " + "Entrance Gate\"), " + "proceed to step 4. If " +
      "the location is " + "ambiguous (e.g., " + "\"computer lab\"), " + "proceed to step 3.\n" +
    "3.  **Clarification " + "Dialogue:** Initiate a " + "short, focused dialogue " +
      "to clarify the user's " + "intended destination. " + "For example: \"There " +
      "are multiple computer " + "labs within Block A and " + "Block B. Could you " +
      "please specify which " + "lab you are looking " + "for?\" or \"The library " +
      "spans multiple floors. " + "Which section are you " + "attempting to " + "locate?\"\n" +
    "4.  **Provide " + "Navigation:** Based on " + "the user's clarified or " +
      "specific request, " + "provide navigational " + "instructions from their " +
      "current coordinates to " + "the destination.\n" +
    "5.  **Coordinate " + "Provision:** Include " + "the destination's " +
      "latitude and longitude " + "coordinates in the " + "response.\n" +
    "6.  **Response " + "Format:** Structure " + "your response in JSON " +
      "format, adhering to the " + "following schema:\n" +
    "\n"

  /** A field name in double quotes, as the format block spells it. */
  function Quoted(field: string): string
  {
    "\"" + field + "\""
  }

  const FormatOpen: string := "    ```json\n    {\n      "
  const AgentMessageHint: string := ": \"<Navigational " + "instructions or " + "clarification " +
    "dialogue>\",\n      "
  const FinalQueryHint: string := ": \"<The user's " + "resolved " + "destination>\",\n      "
  const FormatClose: string := ": [longitude, " + "latitude]\n    }\n    " + "```\n\n"

  /** The response format block; it names the three fields of the response schema. */
  const ResponseFormat: string :=
    FormatOpen + Quoted(GeminiSchema.AgentMessage) + AgentMessageHint + Quoted(GeminiSchema.FinalQuery)
    + FinalQueryHint + Quoted(GeminiSchema.FinalCoordinates) + FormatClose

  const Constraints: string :=
    "**Constraints:**\n" +
    "\n* Provide information " + "only related to campus " + "navigation.\n" +
    "* Use the provided " + "`locations` array as " + "the sole source of " + "location data.\n" +
    "* Do not generate " + "information beyond the " + "scope of the provided " + "data.\n" +
    "* Only provide " + "coordinates when the " + "user's destination is " + "fully resolved.\n" +
    "* Do not mention that " + "you are an AI.\n" +
    "\n"

  /** Everything after the location data: the same text for every input. */
  const Instructions: string := Steps + ResponseFormat + Constraints

  /** The fixed text of the prompt: an opening before the context section and instructions after it. */
  datatype Template = Template(opening: string, instructions: string)

  const Navigator: Template := Template(Persona, Instructions)

  /**
   A template with its three context holes filled: the coordinate text, the
   message and the locations text, each behind its label.
   */
  function Fill(t: Template, coordinateText: string, message: string, locationsText: string): string
  {
    t.opening
    + (CurrentLocationLabel + coordinateText)
    + SectionBreak
    + (UserMessageLabel + message)
    + SectionBreak
    + (LocationDataLabel + locationsText)
    + t.instructions
  }

  /** The serialised caller coordinate, as `JSON.stringify(user_corrdinate)`. */
  function CoordinateText(p: Json.Printer, coordinate: Json.Value): string
  {
    Json.Stringify(p, coordinate)
  }

  /** The serialised location list, as `JSON.stringify(locations)`. */
  function LocationsText(p: Json.Printer, locations: seq<Json.Value>): string
  {
    Json.Stringify(p, Json.Arr(locations))
  }

  /** `navigatorPrompt(user_corrdinate, user_message, locations)`. */
  function Prompt(p: Json.Printer, coordinate: Json.Value, message: string, locations: seq<Json.Value>): string
  {
    Fill(Navigator, CoordinateText(p, coordinate), message, LocationsText(p, locations))
  }

  /** Where the three labelled sections of a filled template start. */
  lemma FillSections(t: Template, x: string, m: string, y: string)
    ensures var r := Fill(t, x, m, y);
      var j := |t.opening| + |CurrentLocationLabel + x| + |SectionBreak|;
      var k := j + |UserMessageLabel + m| + |SectionBreak|;
      && OccursAt(CurrentLocationLabel + x, r, |t.opening|)
      && OccursAt(UserMessageLabel + m, r, j)
      && OccursAt(LocationDataLabel + y, r, k)
  {
  }

  /** Anything inside the locations text is inside the filled template. */
  lemma FillKeepsLocations(t: Template, x: string, m: string, y: string, e: string)
    requires Occurs(e, y)
    ensures Occurs(e, Fill(t, x, m, y))
  {
    FillSections(t, x, m, y);
    var k := |t.opening| + |CurrentLocationLabel + x| + |SectionBreak| + |UserMessageLabel + m| + |SectionBreak|;
    var i: nat :| OccursAt(e, y, i);
    OccursWithin(e, y, i, LocationDataLabel, "");
    assert LocationDataLabel + y + "" == LocationDataLabel + y;
    OccursTransitive(e, LocationDataLabel + y, |LocationDataLabel| + i, Fill(t, x, m, y), k);
  }

  /** A filled template ends with the template's instructions, whatever was filled in. */
  lemma FillEndsWithInstructions(t: Template, x: string, m: string, y: string)
    ensures EndsWith(Fill(t, x, m, y), t.instructions)
  {
    EndsWithAppend(t.opening + (CurrentLocationLabel + x) + SectionBreak + (UserMessageLabel + m)
      + SectionBreak + (LocationDataLabel + y), t.instructions);
  }

  /**
   The three context sections occur in `r`, each right behind its label, in
   the order coordinate, message, locations and without overlapping.
   */
  ghost predicate SectionsInOrder(r: string, coordinateText: string, message: string, locationsText: string)
  {
    exists i: nat, j: nat, k: nat ::
      && OccursAt(CurrentLocationLabel + coordinateText, r, i)
      && OccursAt(UserMessageLabel + message, r, j)
      && OccursAt(LocationDataLabel + locationsText, r, k)
      && i + |CurrentLocationLabel + coordinateText| <= j
      && j + |UserMessageLabel + message| <= k
  }

  /** The three sections of any filled template are in order. */
  lemma FillInOrder(t: Template, x: string, m: string, y: string)
    ensures SectionsInOrder(Fill(t, x, m, y), x, m, y)
  {
    FillSections(t, x, m, y);
  }

  /**
   The prompt holds the serialised coordinate, the message verbatim and the
   serialised location list, each right behind its label, in that order.
   */
  lemma ContextSectionsInOrder(p: Json.Printer, coordinate: Json.Value, message: string, locations: seq<Json.Value>)
    ensures SectionsInOrder(Prompt(p, coordinate, message, locations), CoordinateText(p, coordinate), message, LocationsText(p, locations))
  {
    FillInOrder(Navigator, CoordinateText(p, coordinate), message, LocationsText(p, locations));
  }

  /** Every location record the store returned appears, serialised and unchanged, in the prompt. */
  lemma LocationsGrounded(p: Json.Printer, coordinate: Json.Value, message: string, locations: seq<Json.Value>)
    ensures forall i :: 0 <= i < |locations| ==>
      Occurs(Json.Stringify(p, locations[i]), Prompt(p, coordinate, message, locations))
  {
    forall i | 0 <= i < |locations|
      ensures Occurs(Json.Stringify(p, locations[i]), Prompt(p, coordinate, message, locations))
    {
      Json.ArrayElementOccurs(p, locations, i);
      FillKeepsLocations(Navigator, CoordinateText(p, coordinate), message, LocationsText(p, locations), Json.Stringify(p, locations[i]));
    }
  }

  /** Each of the three fields spliced into a format block occurs in any text around that block. */
  lemma FormatNamesFields(pre: string, x0: string, a: string, x1: string, b: string, x2: string, c: string, x3: string, post: string)
    ensures Occurs(a, pre + (x0 + a + x1 + b + x2 + c + x3) + post)
    ensures Occurs(b, pre + (x0 + a + x1 + b + x2 + c + x3) + post)
    ensures Occurs(c, pre + (x0 + a + x1 + b + x2 + c + x3) + post)
  {
    ThreeHoles(x0, a, x1, b, x2, c, x3);
    OccursWithin(a, x0 + a + x1 + b + x2 + c + x3, |x0|, pre, post);
    OccursWithin(b, x0 + a + x1 + b + x2 + c + x3, |x0| + |a| + |x1|, pre, post);
    OccursWithin(c, x0 + a + x1 + b + x2 + c + x3, |x0| + |a| + |x1| + |b| + |x2|, pre, post);
  }

  /** The instruction text names, in quotes, each of the three fields the response schema requires. */
  lemma InstructionsNameFields()
    ensures Occurs(Quoted(GeminiSchema.AgentMessage), Instructions)
    ensures Occurs(Quoted(GeminiSchema.FinalQuery), Instructions)
    ensures Occurs(Quoted(GeminiSchema.FinalCoordinates), Instructions)
  {
    FormatNamesFields(Steps, FormatOpen, Quoted(GeminiSchema.AgentMessage), AgentMessageHint,
      Quoted(GeminiSchema.FinalQuery), FinalQueryHint, Quoted(GeminiSchema.FinalCoordinates), FormatClose,
      Constraints);
  }

  /**
   The prompt always ends with the same instruction text, whatever the
   inputs, and that text names each field the response schema requires
   (`GeminiSchema.Required` lists exactly these three).
   */
  lemma ResponseFormatIsFixed(p: Json.Printer, coordinate: Json.Value, message: string, locations: seq<Json.Value>)
    ensures EndsWith(Prompt(p, coordinate, message, locations), Instructions)
    ensures GeminiSchema.Required == [GeminiSchema.AgentMessage, GeminiSchema.FinalQuery, GeminiSchema.FinalCoordinates]
    ensures Occurs(Quoted(GeminiSchema.AgentMessage), Instructions)
    ensures Occurs(Quoted(GeminiSchema.FinalQuery), Instructions)
    ensures Occurs(Quoted(GeminiSchema.FinalCoordinates), Instructions)
  {
    FillEndsWithInstructions(Navigator, CoordinateText(p, coordinate), message, LocationsText(p, locations));
    InstructionsNameFields();
  }
}
