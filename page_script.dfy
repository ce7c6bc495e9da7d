/**
 * The page-side state of the landing page (script.js): the contact form with its
 * all-fields-required check and its offline queue (kept in local storage under
 * "offlineMessages" and flushed when the browser comes back online), and the deferred
 * install prompt behind the install and download buttons.
 *
 * The page is one object whose fields the handlers update in place; the only DOM state kept
 * is what these handlers decide: the form's values, whether the install banner is shown, and
 * the text and kind of the notification toast.
 */
module PageScript {
  import opened Wrappers
  import Stats

  datatype ContactForm = ContactForm(name: string, email: string, subject: string, message: string)

  /** The form after `reset()`. */
  const BlankForm: ContactForm := ContactForm("", "", "", "")

  /** The submit check: `!value` is true of a field only when it is the empty string. */
  predicate Complete(f: ContactForm)
  {
    f.name != "" && f.email != "" && f.subject != "" && f.message != ""
  }

  /** One queued message: the four fields and the time it was stored. */
  datatype StoredMessage = StoredMessage(name: string, email: string, subject: string, message: string, timestamp: string)

  function Stamped(f: ContactForm, timestamp: string): StoredMessage
  {
    StoredMessage(f.name, f.email, f.subject, f.message, timestamp)
  }

  datatype ToastKind = Info | Success | Error
  datatype Toast = Toast(text: string, kind: ToastKind)

  const MissingFieldsToast: Toast := Toast("Por favor, completa todos los campos", Error)
  const SentToast: Toast := Toast("Mensaje enviado correctamente. Te contactaremos pronto.", Success)
  const SavedToast: Toast := Toast("Mensaje guardado. Se enviará cuando tengas conexión.", Info)
  const InstallHintToast: Toast :=
    Toast("Puedes instalar la app desde el banner superior o el menú de tu navegador.", Info)

  /** The toast after flushing count queued messages. */
  function FlushedToast(count: nat): Toast
  {
    Toast(Stats.Decimal(count) + " mensaje(s) enviado(s)", Success)
  }

  class Page {
    /** The values currently in the contact form's inputs. */
    var form: ContactForm
    /** The queue in local storage; an absent entry reads as the empty queue. */
    var offlineMessages: seq<StoredMessage>
    /** Whether a `beforeinstallprompt` event has been saved for later. */
    var deferredPrompt: bool
    /** Whether the install banner is shown. */
    var promptShown: bool
    /** The notification toast's last text and kind, if one was shown. */
    var toast: Option<Toast>

    constructor (form: ContactForm, stored: seq<StoredMessage>)
      ensures this.form == form && offlineMessages == stored
      ensures !deferredPrompt && !promptShown && toast == None
    {
      this.form := form;
      offlineMessages := stored;
      deferredPrompt, promptShown, toast := false, false, None;
    }

    method ShowNotification(t: Toast)
      modifies this`toast
      ensures toast == Some(t)
    {
      toast := Some(t);
    }

    /**
     * Submitting the form. An incomplete form only shows the error: nothing is queued and the
     * form keeps its values. A complete one is sent when online and queued when offline, and
     * the form is reset either way.
     */
    method Submit(online: bool, timestamp: string)
      modifies this`form, this`offlineMessages, this`toast
      ensures !Complete(old(form)) ==>
        form == old(form) && offlineMessages == old(offlineMessages) && toast == Some(MissingFieldsToast)
      ensures Complete(old(form)) && online ==>
        form == BlankForm && offlineMessages == old(offlineMessages) && toast == Some(SentToast)
      ensures Complete(old(form)) && !online ==>
        form == BlankForm && offlineMessages == old(offlineMessages) + [Stamped(old(form), timestamp)]
        && toast == Some(SavedToast)
    {
      if !Complete(form) {
        ShowNotification(MissingFieldsToast);
        return;
      }
      if online {
        ShowNotification(SentToast);
        form := BlankForm;
      } else {
        StoreOfflineMessage(form, timestamp);
        ShowNotification(SavedToast);
        form := BlankForm;
      }
    }

    /** Appends one stamped record; the earlier records stay as they were, in order. */
    method StoreOfflineMessage(f: ContactForm, timestamp: string)
      modifies this`offlineMessages
      ensures offlineMessages == old(offlineMessages) + [Stamped(f, timestamp)]
    {
      offlineMessages := offlineMessages + [Stamped(f, timestamp)];
    }

    /**
     * The `online` event: a non-empty queue is sent in order, removed, and counted in a
     * toast; an empty one changes nothing and shows nothing.
     */
    method OnOnline() returns (sent: seq<StoredMessage>)
      modifies this`offlineMessages, this`toast
      ensures sent == old(offlineMessages) && offlineMessages == []
      ensures old(offlineMessages) != [] ==> toast == Some(FlushedToast(|sent|))
      ensures old(offlineMessages) == [] ==> toast == old(toast)
    {
      sent := offlineMessages;
      if |sent| > 0 {
        offlineMessages := [];
        ShowNotification(FlushedToast(|sent|));
      }
    }

    /** `beforeinstallprompt`: the event is kept and the banner shown. */
    method OnBeforeInstallPrompt()
      modifies this`deferredPrompt, this`promptShown
      ensures deferredPrompt && promptShown
    {
      deferredPrompt := true;
      promptShown := true;
    }

    method HideInstallPrompt()
      modifies this`promptShown
      ensures !promptShown
    {
      promptShown := false;
    }

    /** `appinstalled`: the banner is hidden and the saved event dropped. */
    method OnAppInstalled()
      modifies this`deferredPrompt, this`promptShown
      ensures !deferredPrompt && !promptShown
    {
      HideInstallPrompt();
      deferredPrompt := false;
    }

    /**
     * The install button: the banner is always hidden; the saved event, when there is one, is
     * prompted and then dropped.
     */
    method InstallApp() returns (prompted: bool)
      modifies this`deferredPrompt, this`promptShown
      ensures prompted == old(deferredPrompt)
      ensures !deferredPrompt && !promptShown
    {
      HideInstallPrompt();
      prompted := deferredPrompt;
      if deferredPrompt {
        deferredPrompt := false;
      }
    }

    /** The download button: the install path exactly when an event is saved, a hint otherwise. */
    method DownloadApp() returns (prompted: bool)
      modifies this`deferredPrompt, this`promptShown, this`toast
      ensures prompted == old(deferredPrompt)
      ensures old(deferredPrompt) ==> !deferredPrompt && !promptShown && toast == old(toast)
      ensures !old(deferredPrompt) ==>
        !deferredPrompt && promptShown == old(promptShown) && toast == Some(InstallHintToast)
    {
      if deferredPrompt {
        prompted := InstallApp();
      } else {
        prompted := false;
        ShowNotification(InstallHintToast);
      }
    }
  }
}
