/**
 * The "Kevin" help widget of the landing page (script.js): choosing a topic appends the
 * canned answer and a back-to-menu row to the chat body and hides the options; resetting
 * removes children from the end until only the first two (the greeting and the options)
 * remain, and shows the options again.
 */
module Chatbot {

  const LoginHelp: string :=
    "<b>¿Cómo iniciar sesión?</b><br>"
    + "1. Selecciona tu carrera en el menú desplegable.<br>"
    + "2. Ingresa tu registro universitario.<br>"
    + "3. Escribe tu contraseña (si es tu primera vez, crea una nueva).<br>"
    + "4. Haz clic en <b>Iniciar Sesión</b>.<br>"
    + "¡Listo! Accederás al panel principal."

  const RequestHelp: string :=
    "<b>¿Cómo solicitar un caso especial?</b><br>"
    + "1. Inicia sesión en el sistema.<br>"
    + "2. Ve al menú <b>Solicitud Caso Especial</b>.<br>"
    + "3. Completa el formulario con los datos requeridos.<br>"
    + "4. Los documentos necesarios ya se encuentran en el sistema.<br>"
    + "5. Envía tu solicitud y espera la confirmación."

  const StatusHelp: string :=
    "<b>¿Cómo ver el estado de mi solicitud?</b><br>"
    + "1. Inicia sesión y accede al panel.<br>"
    + "2. Haz clic en <b>Procesos Estados</b> en el menú lateral.<br>"
    + "3. Verás el listado y estado de tus solicitudes.<br>"
    + "Puedes consultar detalles y notificaciones aquí."

  const SupportHelp: string :=
    "<b>¿Cómo contactar soporte?</b><br>"
    + "Puedes escribirnos al correo <b>ugartelaura3@gmail.com</b> o usar la sección de <b>Contacto</b> en la página principal.<br>"
    + "¡Kevin siempre está para ayudarte!"

  /** The answer for a topic key; an unknown key (or a missing one) gets the empty message. */
  function OptionMessage(opt: string): (msg: string)
    ensures msg != "" <==> opt in {"login", "solicitud", "estado", "soporte"}
  {
    if opt == "login" then LoginHelp
    else if opt == "solicitud" then RequestHelp
    else if opt == "estado" then StatusHelp
    else if opt == "soporte" then SupportHelp
    else ""
  }

  /** A child of the chat body. */
  datatype ChatNode = Greeting | Options | BotMessage(html: string) | BackToMenu

  class ChatWidget {
    var children: seq<ChatNode>
    var optionsShown: bool

    constructor (initial: seq<ChatNode>)
      ensures children == initial && optionsShown
    {
      children := initial;
      optionsShown := true;
    }

    /** Choosing a topic: its answer and a back-to-menu row are appended, the options hidden. */
    method HandleOption(opt: string)
      modifies this
      ensures children == old(children) + [BotMessage(OptionMessage(opt)), BackToMenu]
      ensures !optionsShown
    {
      children := children + [BotMessage(OptionMessage(opt))];
      optionsShown := false;
      children := children + [BackToMenu];
    }

    /** Removes the last child while more than two remain, then shows the options. */
    method ResetChat()
      modifies this
      ensures |children| == if |old(children)| > 2 then 2 else |old(children)|
      ensures children == old(children)[..|children|]
      ensures optionsShown
    {
      while |children| > 2
        invariant |children| >= (if |old(children)| > 2 then 2 else |old(children)|)
        invariant |children| <= |old(children)|
        invariant children == old(children)[..|children|]
        decreases |children|
      {
        children := children[..|children| - 1];
      }
      optionsShown := true;
    }

    /** A topic followed by the back-to-menu button leaves the first two children of before. */
    method ChooseThenBack(opt: string)
      modifies this
      ensures children == (old(children) + [BotMessage(OptionMessage(opt)), BackToMenu])[..2]
      ensures optionsShown
    {
      HandleOption(opt);
      ResetChat();
    }
  }
}
